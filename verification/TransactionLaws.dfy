/** What holds in every world the service can reach: over any sequence of requests, answers,
    disk failures, kills and restarts. */
module TransactionLaws {
  import opened Protocol
  import opened History
  import opened JournalFile
  import opened JournalLaws
  import opened Transaction

  /** The durable state in which the runner waits at a point. */
  function StateAt(pc: Pc): State {
    match pc
    case FirstVersion => Requested case FirstPreflight => Requested case SaveValidated => Requested
    case SaveStaging => Validated
    case Prepare => Staging case SaveStaged => Staging
    case SecondVersion => Staged case SecondPreflight => Staged case SaveStopRequested => Staged
    case Stop => StopRequested case SaveStopped => StopRequested
    case SaveBackupStarted => Stopped
    case TakeBackup => BackupStarted case SaveBackedUp => BackupStarted
    case SaveStartRequested => BackedUp
    case Start => StartRequested case SaveStarted => StartRequested
    case Verify => Started case SaveVerified => Started
    case SaveComplete => Verified
    case _ => RollingBack
  }

  /** Program order. */
  function Order(pc: Pc): nat {
    match pc
    case FirstVersion => 0 case FirstPreflight => 1 case SaveValidated => 2 case SaveStaging => 3
    case Prepare => 4 case SaveStaged => 5 case SecondVersion => 6 case SecondPreflight => 7
    case SaveStopRequested => 8 case Stop => 9 case SaveStopped => 10 case SaveBackupStarted => 11
    case TakeBackup => 12 case SaveBackedUp => 13 case SaveStartRequested => 14 case Start => 15
    case SaveStarted => 16 case Verify => 17 case SaveVerified => 18 case SaveComplete => 19
    case ReadState => 20 case SaveFailed => 21 case SaveRollingBack => 22 case Restore => 23
    case VerifyOriginal => 24 case SaveRestored => 25 case SaveManual => 26
  }

  /** How the local variables of a run agree with its durable job. */
  ghost predicate RunOk(c: Control, job: Job) {
    && job.id == c.plan.id && job.target == c.plan.target && job.current == c.plan.current
    && (Order(c.pc) < 20 || c.pc in {Restore, VerifyOriginal, SaveRestored, SaveManual} ==> job.state == StateAt(c.pc))
    && (c.pc == ReadState ==> job.state !in TERMINAL && job.state != RollingBack)
    && (c.pc == SaveFailed ==> job.state in BEFORE_CUTOVER)
    && (c.pc == SaveRollingBack ==> RollingBack in Next(job.state))
    && (Order(c.pc) >= 20 ==> c.failure.Some?)
    && (5 <= Order(c.pc) < 20 ==> c.candidate.Some?)
    && (6 <= Order(c.pc) < 20 ==> job.artifact == Some(c.candidate.value.archive))
    && (c.pc == SaveStaged ==> IsDigest(c.candidate.value.archive))
    && (c.backup.Some? ==> IsDigest(c.backup.value.manifest)
                           && c.backup.value.id == c.plan.id && c.backup.value.version == c.plan.current)
    && (Order(c.pc) < 13 ==> c.backup.None?)
    && (13 <= Order(c.pc) < 20 ==> c.backup.Some?)
    && (c.mayHaveStarted <==> 15 <= Order(c.pc) < 20 || (Order(c.pc) >= 20 && c.backup.Some?))
    && (c.backup.Some? && c.pc != SaveBackedUp ==> job.backup == Some(c.backup.value.manifest))
    && (c.mayHaveStarted ==> Mentions(job.events, StartRequested))
    && (Order(c.pc) >= 20 && job.state in BEFORE_CUTOVER ==> !c.mayHaveStarted)
  }

  /** A call is covered when its request has a job that has already recorded the intent. */
  ghost predicate Covered(call: Call, p: Payload) {
    var i := Find(p.jobs, call.id);
    i < |p.jobs| && Mentions(p.jobs[i].events, StateAt(call.pc))
  }

  ghost predicate CallsOk(calls: seq<Call>, p: Payload) {
    forall k :: 0 <= k < |calls| ==> Covered(calls[k], p)
  }

  ghost predicate NoRepeats(calls: seq<Call>) {
    forall k, l :: 0 <= k < l < |calls| ==> calls[k] != calls[l]
  }

  ghost predicate CallsBefore(calls: seq<Call>, c: Control) {
    forall k :: 0 <= k < |calls| && calls[k].id == c.plan.id ==>
      Order(calls[k].pc) < Order(c.pc) && (calls[k].pc == Start ==> c.mayHaveStarted)
  }

  ghost predicate OnlyHostCalls(calls: seq<Call>) {
    forall k :: 0 <= k < |calls| ==> AtHost(calls[k].pc)
  }

  ghost predicate AcksOk(acks: seq<string>, p: Payload) {
    forall k :: 0 <= k < |acks| ==> Find(p.jobs, acks[k]) < |p.jobs|
  }

  ghost predicate Inv(w: World) {
    && w.store.disk.Some?
    && Valid(w.store.disk.value)
    && CallsOk(w.calls, w.store.disk.value)
    && NoRepeats(w.calls)
    && OnlyHostCalls(w.calls)
    && AcksOk(w.acks, w.store.disk.value)
    && (w.run.Some? ==>
          && w.up && !w.store.ioFailed
          && w.store.disk.value.jobs != []
          && RunOk(w.run.value, LastJob(w.store.disk.value))
          && CallsBefore(w.calls, w.run.value))
  }

  // ----------------------------------------------------------------------------------------
  // Facts about growing journals

  lemma FindExtends(p: Payload, q: Payload, id: string)
    requires Extends(p, q) && Find(p.jobs, id) < |p.jobs|
    ensures Find(q.jobs, id) == Find(p.jobs, id)
  {
    var i, k := Find(p.jobs, id), Find(q.jobs, id);
    assert q.jobs[i].id == id;
    assert !(k > i);
    assert forall j :: 0 <= j < |p.jobs| ==> q.jobs[j].id == p.jobs[j].id;
    assert !(k < i);
  }

  lemma MentionsExtends(a: seq<Event>, b: seq<Event>, s: State)
    requires a <= b && Mentions(a, s)
    ensures Mentions(b, s)
  {
    var k :| 0 <= k < |a| && a[k].state == s;
    assert b[k] == a[k];
  }

  lemma ExtendsKeepsCalls(p: Payload, q: Payload, calls: seq<Call>, acks: seq<string>)
    requires Extends(p, q) && CallsOk(calls, p) && AcksOk(acks, p)
    ensures CallsOk(calls, q) && AcksOk(acks, q)
  {
    forall k | 0 <= k < |calls| ensures Covered(calls[k], q) {
      assert Covered(calls[k], p);
      var i := Find(p.jobs, calls[k].id);
      FindExtends(p, q, calls[k].id);
      assert JobExtends(p.jobs[i], q.jobs[i]);
      MentionsExtends(p.jobs[i].events, q.jobs[i].events, StateAt(calls[k].pc));
    }
    forall k | 0 <= k < |acks| ensures Find(q.jobs, acks[k]) < |q.jobs| {
      FindExtends(p, q, acks[k]);
    }
  }

  // ----------------------------------------------------------------------------------------
  // Every move keeps the invariant and only extends the journal

  ghost predicate Good(w: World, w': World)
    requires w.store.disk.Some?
  {
    && Inv(w')
    && Extends(w.store.disk.value, w'.store.disk.value)
  }

  lemma SubmitKeeps(w: World, req: Request, wantsAck: bool, now: int, io: Io)
    requires Inv(w) && w.run.None? && w.up && !w.store.ioFailed && IsRequest(req)
    ensures Good(w, SubmitStep(w, req, wantsAck, now, io))
  {
    hide Valid, Text, BeginStep, Extends, IsRequest, Mentions, Covered, RunOk, NewJob, Initial, CallsOk, AcksOk, Find,
      Blocked;
    var p := w.store.disk.value;
    BeginOutcome(w.store, p, req, now, io);
    var w' := SubmitStep(w, req, wantsAck, now, io);
    var q := w'.store.disk.value;
    ExtendsKeepsCalls(p, q, w.calls, w.acks);
    if w'.run.Some? {
      InitialRunOk(req, now);
      NoCallsYet(w, req.id);
    }
    if w'.acks != w.acks {
      AckKeeps(p, q, w.acks, req, now);
    }
  }

  lemma InitialRunOk(req: Request, now: int)
    ensures RunOk(Initial(PlanOf(req)), NewJob(req, now))
    ensures Initial(PlanOf(req)).plan.id == req.id
  {
  }

  lemma AckKeeps(p: Payload, q: Payload, acks: seq<string>, req: Request, now: int)
    requires AcksOk(acks, q)
    requires (Find(p.jobs, req.id) < |p.jobs| && q == p) || q.jobs == p.jobs + [NewJob(req, now)]
    ensures AcksOk(acks + [req.id], q)
  {
    if q != p {
      assert q.jobs[|p.jobs|].id == req.id;
    }
  }

  lemma NoCallsYet(w: World, id: string)
    requires Inv(w) && Find(w.store.disk.value.jobs, id) == |w.store.disk.value.jobs|
    ensures forall k :: 0 <= k < |w.calls| ==> w.calls[k].id != id
  {
    forall k | 0 <= k < |w.calls| ensures w.calls[k].id != id {
      assert Covered(w.calls[k], w.store.disk.value);
    }
  }

  lemma HostKeeps(w: World, a: Answer)
    requires Inv(w) && w.run.Some? && AtHost(w.run.value.pc)
    ensures Good(w, HostStep(w, w.run.value, a))
  {
    hide Valid, Text, Mentions, Covered, RunOk, Extends, AfterHost;
    var c, p := w.run.value, w.store.disk.value;
    var w' := HostStep(w, c, a);
    RunIsOk(w);
    CallCovered(c, p);
    ExtendsReflexive(p);
    StartHasStarted(c, LastJob(p));
    if AfterHost(c, a).Some? {
      HostKeepsRun(c, LastJob(p), a);
      HostAdvances(c, a);
    }
    assert NoRepeats(w'.calls);
  }

  lemma CallCovered(c: Control, p: Payload)
    requires Valid(p) && p.jobs != [] && RunOk(c, LastJob(p)) && AtHost(c.pc)
    ensures Covered(Call(c.plan.id, c.pc), p)
  {
    hide Valid, Mentions, IsDigest;
    UniqueFindLast(p);
    LastIsMentioned(p);
  }

  lemma LastIsMentioned(p: Payload)
    requires Valid(p) && p.jobs != []
    ensures Mentions(LastJob(p).events, LastJob(p).state)
  {
    var j := LastJob(p);
    assert JobOk(j);
    assert j.events[|j.events| - 1].state == j.state;
  }

  lemma HostKeepsRun(c: Control, job: Job, a: Answer)
    requires RunOk(c, job) && AtHost(c.pc) && AfterHost(c, a).Some?
    ensures RunOk(AfterHost(c, a).value, job)
  {
    hide Mentions, IsDigest;
  }

  lemma HostAdvances(c: Control, a: Answer)
    requires AtHost(c.pc) && AfterHost(c, a).Some?
    ensures var next := AfterHost(c, a).value;
      Order(c.pc) < Order(next.pc) && next.plan == c.plan && next.mayHaveStarted == c.mayHaveStarted
  {
    hide GoodCandidate, GoodBackup;
  }

  lemma StartHasStarted(c: Control, job: Job)
    requires RunOk(c, job)
    ensures c.pc == Start ==> c.mayHaveStarted
  {
    hide Mentions, IsDigest;
  }

  lemma DiskKeeps(w: World, now: int, io: Io)
    requires Inv(w) && w.run.Some? && !AtHost(w.run.value.pc)
    ensures Good(w, DiskStep(w, w.run.value, now, io))
  {
    if w.run.value.pc == ReadState {
      ReadKeeps(w, now, io);
    } else {
      SaveKeeps(w, now, io);
    }
  }

  lemma ReadOutcome(w: World, p: Payload, c: Control, now: int, io: Io)
    requires w.store.disk == Some(p) && Valid(p) && p.jobs != [] && LastJob(p).id == c.plan.id && c.pc == ReadState
    ensures DiskStep(w, c, now, io) == w.(run := if io == Unreadable then None else
      Some(c.(pc := if LastJob(p).state in BEFORE_CUTOVER then SaveFailed else SaveRollingBack)))
  {
    hide Valid, ReadStep, Find;
    UniqueFindLast(p);
    ReadValid(w.store, p, io);
  }

  lemma ReadKeeps(w: World, now: int, io: Io)
    requires Inv(w) && w.run.Some? && w.run.value.pc == ReadState
    ensures Good(w, DiskStep(w, w.run.value, now, io))
  {
    hide DiskStep, Valid, RunOk, Extends, CallsOk, AcksOk, NoRepeats, OnlyHostCalls;
    var c, p := w.run.value, w.store.disk.value;
    RunIsOk(w);
    ReadOutcome(w, p, c, now, io);
    ExtendsReflexive(p);
    ReadKeepsRun(c, LastJob(p));
  }

  lemma ReadKeepsRun(c: Control, job: Job)
    requires RunOk(c, job) && c.pc == ReadState
    ensures RunOk(c.(pc := if job.state in BEFORE_CUTOVER then SaveFailed else SaveRollingBack), job)
  {
    hide Mentions, IsDigest;
  }

  /** What a saving point does to the world, for every disk behaviour. */
  lemma SaveOutcome(w: World, now: int, io: Io)
    requires Inv(w) && w.run.Some? && !AtHost(w.run.value.pc) && w.run.value.pc != ReadState
    ensures var w', p := DiskStep(w, w.run.value, now, io), w.store.disk.value;
      && w' == w.(store := w'.store, run := w'.run)
      && w'.store.disk.Some? && Valid(w'.store.disk.value) && Extends(p, w'.store.disk.value)
      && (w'.run.Some? ==>
            && !w'.store.ioFailed && w'.run == AfterSave(w.run.value)
            && var write := WriteAt(w.run.value);
               w'.store.disk.value.jobs ==
                 p.jobs[|p.jobs| - 1 := Moved(LastJob(p), write.state, write.code, write.backup, write.artifact, now)])
  {
    var c, p := w.run.value, w.store.disk.value;
    UniqueFindLast(p);
    var write := WriteAt(c);
    TransitionOutcome(w.store, p, c.plan.id, write.state, write.code, write.backup, write.artifact, now, io);
    hide Valid, Text, TransitionStep, Extends, CallsOk, AcksOk, NoRepeats, OnlyHostCalls, CallsBefore, WriteAt,
      AfterSave, Moved, Next;
    assert c.plan.id == LastJob(p).id;
    hide RunOk;
  }

  lemma SaveKeeps(w: World, now: int, io: Io)
    requires Inv(w) && w.run.Some? && !AtHost(w.run.value.pc) && w.run.value.pc != ReadState
    ensures Good(w, DiskStep(w, w.run.value, now, io))
  {
    hide Valid, Extends, CallsOk, AcksOk, NoRepeats, OnlyHostCalls, RunOk, WriteAt, AfterSave, Moved, DiskStep;
    var c, p := w.run.value, w.store.disk.value;
    RunIsOk(w);
    SaveOutcome(w, now, io);
    var w' := DiskStep(w, c, now, io);
    ExtendsKeepsCalls(p, w'.store.disk.value, w.calls, w.acks);
    if w'.run.Some? {
      SaveKeepsRun(c, LastJob(p), now);
      SaveAdvances(c);
    }
  }

  lemma SaveKeepsRun(c: Control, job: Job, now: int)
    requires RunOk(c, job) && !AtHost(c.pc) && c.pc != ReadState && AfterSave(c).Some?
    ensures var write := WriteAt(c);
      && RunOk(AfterSave(c).value, Moved(job, write.state, write.code, write.backup, write.artifact, now))
  {
    hide Mentions, IsDigest;
    var write := WriteAt(c);
    var e := Event(|job.events|, write.state, now, write.code);
    MentionsGrows(job.events, e, StartRequested);
  }

  lemma SaveAdvances(c: Control)
    requires AfterSave(c).Some?
    ensures var next := AfterSave(c).value;
      Order(c.pc) < Order(next.pc) && next.plan == c.plan && (c.mayHaveStarted ==> next.mayHaveStarted)
  {
  }

  lemma RestartKeeps(w: World, now: int, io: Io)
    requires Inv(w) && !w.up
    ensures Good(w, RestartStep(w, now, io))
    ensures RestartStep(w, now, io).up ==> AllTerminal(RestartStep(w, now, io).store.disk.value)
  {
    var p := w.store.disk.value;
    RecoveryOutcome(Store(w.store.disk, false), p, now, io);
    var q := RestartStep(w, now, io).store.disk.value;
    hide Valid, RecoverStep, Extends, Recovered;
    ExtendsKeepsCalls(p, q, w.calls, w.acks);
  }

  /** One move, from anywhere reachable. */
  lemma StepKeeps(w: World, m: Move)
    requires Inv(w)
    ensures Good(w, Step(w, m))
  {
    ExtendsReflexive(w.store.disk.value);
    match m
    case Submit(req, wantsAck, now, io) =>
      if w.up && w.run.None? && !w.store.ioFailed && IsRequest(req) { SubmitKeeps(w, req, wantsAck, now, io); }
    case Host(a) =>
      if w.run.Some? && AtHost(w.run.value.pc) { HostKeeps(w, a); }
    case Disk(now, io) =>
      if w.run.Some? && !AtHost(w.run.value.pc) { DiskKeeps(w, now, io); }
    case LockBreaks =>
    case Kill =>
    case Restart(now, io) =>
      if !w.up { RestartKeeps(w, now, io); }
  }

  lemma FreshIsGood()
    ensures Inv(FRESH)
  {
  }

  /** Every reachable world satisfies the invariant. */
  lemma {:induction false} Reachable(ms: seq<Move>)
    ensures Inv(After(FRESH, ms))
  {
    if ms == [] {
      FreshIsGood();
    } else {
      Reachable(ms[..|ms| - 1]);
      StepKeeps(After(FRESH, ms[..|ms| - 1]), ms[|ms| - 1]);
    }
  }

  // ----------------------------------------------------------------------------------------
  // The promises, over every history

  /** Points whose action changes the installation, as opposed to looking at it or preparing. */
  predicate Invasive(pc: Pc) {
    pc in {Stop, TakeBackup, Start, Verify, Restore, VerifyOriginal}
  }

  /** Write-ahead intent: whenever a host action is invoked, the journal on disk already ends with
      this request's job, in exactly the state that announces the action; and the same action has
      not been invoked for this request before, in this process or in any earlier one. */
  lemma WriteAhead(ms: seq<Move>, m: Move)
    requires Step(After(FRESH, ms), m).calls != After(FRESH, ms).calls
    ensures var w, w' := After(FRESH, ms), Step(After(FRESH, ms), m);
      && w.run.Some? && w.store.disk.Some? && w.store.disk.value.jobs != []
      && var call := Call(w.run.value.plan.id, w.run.value.pc);
         && w'.calls == w.calls + [call] && call !in w.calls
         && LastJob(w.store.disk.value).id == call.id
         && LastJob(w.store.disk.value).state == StateAt(call.pc)
  {
    hide After, Inv, SubmitStep, DiskStep, RestartStep, RunOk, CallsBefore, StateAt, AfterHost, IsRequest;
    Reachable(ms);
    var w := After(FRESH, ms);
    CallsChange(w, m);
    RunIsOk(w);
    RunWaits(w.run.value, LastJob(w.store.disk.value));
    RunCallsBefore(w);
    NotCalled(w.calls, w.run.value);
  }

  /** Only a host action is recorded as a call. */
  lemma CallsChange(w: World, m: Move)
    requires Step(w, m).calls != w.calls
    ensures m.Host? && w.run.Some? && AtHost(w.run.value.pc)
    ensures Step(w, m).calls == w.calls + [Call(w.run.value.plan.id, w.run.value.pc)]
  {
    hide BeginStep, TransitionStep, RecoverStep, ReadStep, IsRequest, AfterHost, Find;
  }

  lemma RunWaits(c: Control, job: Job)
    requires RunOk(c, job) && AtHost(c.pc)
    ensures job.id == c.plan.id && job.state == StateAt(c.pc)
  {
    hide Mentions, IsDigest;
  }

  lemma NotCalled(calls: seq<Call>, c: Control)
    requires CallsBefore(calls, c)
    ensures Call(c.plan.id, c.pc) !in calls
  {
  }

  /** No action is ever repeated for a request, over any mixture of duplicate requests, failures,
      crashes and restarts. */
  lemma AtMostOnce(ms: seq<Move>, k: nat, l: nat)
    requires k < l < |After(FRESH, ms).calls|
    ensures After(FRESH, ms).calls[k] != After(FRESH, ms).calls[l]
  {
    Reachable(ms);
    hide Valid, CallsOk, AcksOk, RunOk;
  }

  lemma CoveredNotFailed(call: Call, p: Payload)
    requires Valid(p) && Covered(call, p) && Invasive(call.pc)
    ensures p.jobs[Find(p.jobs, call.id)].state != Failed
    ensures p.jobs[Find(p.jobs, call.id)].state !in BEFORE_CUTOVER
  {
    hide IsRequestId, IsVersion, OptionalDigest, Text, Find;
    var j := p.jobs[Find(p.jobs, call.id)];
    assert JobOk(j);
    var k :| 0 <= k < |j.events| && j.events[k].state == StateAt(call.pc);
    NoFailureAfterStop(j.events, k, |j.events| - 1);
  }

  /** A request that is reported as failed never had its installation stopped or changed. */
  lemma FailedMeansUntouched(ms: seq<Move>, i: nat, k: nat)
    requires After(FRESH, ms).store.disk.Some? && i < |After(FRESH, ms).store.disk.value.jobs|
    requires After(FRESH, ms).store.disk.value.jobs[i].state == Failed
    requires k < |After(FRESH, ms).calls|
      && After(FRESH, ms).calls[k].id == After(FRESH, ms).store.disk.value.jobs[i].id
    ensures !Invasive(After(FRESH, ms).calls[k].pc)
  {
    Reachable(ms);
    var w := After(FRESH, ms);
    UniqueFind(w.store.disk.value);
    if Invasive(w.calls[k].pc) {
      assert Covered(w.calls[k], w.store.disk.value);
      CoveredNotFailed(w.calls[k], w.store.disk.value);
    }
  }

  /** When the service is back up after a crash, every request whose installation was touched is
      complete, restored, or waiting for an operator; one that was interrupted waits. */
  lemma RestartReconciles(ms: seq<Move>, now: int, io: Io, k: nat)
    requires !After(FRESH, ms).up && Step(After(FRESH, ms), Restart(now, io)).up
    requires k < |After(FRESH, ms).calls| && Invasive(After(FRESH, ms).calls[k].pc)
    ensures var w, w' := After(FRESH, ms), Step(After(FRESH, ms), Restart(now, io));
      && w.store.disk.Some? && w'.store.disk.Some?
      && w'.calls == w.calls
      && var i := Find(w.store.disk.value.jobs, w.calls[k].id);
         && i < |w.store.disk.value.jobs| == |w'.store.disk.value.jobs|
         && w'.store.disk.value.jobs[i].state in {Complete, Restored, ManualActionRequired}
         && (w.store.disk.value.jobs[i].state !in TERMINAL ==>
               w'.store.disk.value.jobs[i].state == ManualActionRequired)
  {
    hide Inv, Covered, Find, RecoverStep;
    Reachable(ms);
    var w := After(FRESH, ms);
    CallIsCovered(w, k);
    RecoveredCall(Store(w.store.disk, false), w.store.disk.value, now, io, w.calls[k]);
  }

  lemma CallIsCovered(w: World, k: nat)
    requires Inv(w) && k < |w.calls|
    ensures w.store.disk.Some? && Valid(w.store.disk.value) && Covered(w.calls[k], w.store.disk.value)
  {
    hide Valid, Covered, RunOk, AcksOk, NoRepeats;
  }

  lemma RecoveredCall(st: Store, p: Payload, now: int, io: Io, call: Call)
    requires st.disk == Some(p) && Valid(p) && Covered(call, p) && Invasive(call.pc)
    requires RecoverStep(st, now, io).1 == None
    ensures RecoverStep(st, now, io).0.disk.Some?
    ensures var i, q := Find(p.jobs, call.id), RecoverStep(st, now, io).0.disk.value;
      && i < |p.jobs| == |q.jobs|
      && q.jobs[i].state in {Complete, Restored, ManualActionRequired}
      && (p.jobs[i].state !in TERMINAL ==> q.jobs[i].state == ManualActionRequired)
  {
    hide Valid, RecoverStep, Extends, Mentions, Find;
    RecoveryOutcome(st, p, now, io);
    CoveredNotFailed(call, p);
  }

  /** Once a request waits for an operator, nothing the service can experience writes to the
      journal or invokes the host again. */
  lemma {:induction false} ManualIsFinal(w: World, ms: seq<Move>)
    requires Inv(w) && w.run.None? && w.store.disk.value.jobs != []
    requires LastJob(w.store.disk.value).state == ManualActionRequired
    ensures After(w, ms).store.disk == w.store.disk && After(w, ms).calls == w.calls && After(w, ms).run.None?
  {
    if ms != [] {
      var ms' := ms[..|ms| - 1];
      ManualIsFinal(w, ms');
      var w0 := After(w, ms');
      StepsKeep(w, ms');
      ManualStep(w0, ms[|ms| - 1]);
    }
  }

  lemma {:induction false} StepsKeep(w: World, ms: seq<Move>)
    requires Inv(w)
    ensures Inv(After(w, ms)) && Extends(w.store.disk.value, After(w, ms).store.disk.value)
  {
    if ms == [] {
      ExtendsReflexive(w.store.disk.value);
    } else {
      var w0 := After(w, ms[..|ms| - 1]);
      StepsKeep(w, ms[..|ms| - 1]);
      StepKeeps(w0, ms[|ms| - 1]);
      ExtendsTransitive(w.store.disk.value, w0.store.disk.value, After(w, ms).store.disk.value);
    }
  }

  lemma ManualStep(w: World, m: Move)
    requires Inv(w) && w.run.None? && w.store.disk.value.jobs != []
    requires LastJob(w.store.disk.value).state == ManualActionRequired
    ensures Step(w, m).store.disk == w.store.disk && Step(w, m).calls == w.calls && Step(w, m).run.None?
  {
    var p := w.store.disk.value;
    match m
    case Submit(req, wantsAck, now, io) =>
      assert Active(p.jobs[|p.jobs| - 1].state);
      BeginReadsOnly(w.store, p, req, now, io);
      hide Inv, BeginStep;
    case Restart(now, io) =>
      assert !Unfinished(p);
      RecoverUnfolds(Store(w.store.disk, false), p, now, io);
      hide Inv, RecoverStep;
    case _ =>
      hide Inv;
  }

  /** The journal that any history of moves leaves behind extends the one it started from: no
      job, event or digest is ever lost or rewritten. */
  lemma JournalOnlyGrows(ms: seq<Move>, more: seq<Move>)
    ensures After(FRESH, ms).store.disk.Some? && After(After(FRESH, ms), more).store.disk.Some?
    ensures Extends(After(FRESH, ms).store.disk.value, After(After(FRESH, ms), more).store.disk.value)
  {
    Reachable(ms);
    StepsKeep(After(FRESH, ms), more);
  }

  /** When the original is about to be restored, a candidate that may have started comes with a
      backup whose digest is the one in the journal; without a backup no candidate was started. */
  lemma RestoreHasBackup(ms: seq<Move>)
    requires After(FRESH, ms).run.Some? && After(FRESH, ms).run.value.pc == Restore
    ensures var w := After(FRESH, ms);
      var c := w.run.value;
      && w.store.disk.Some? && w.store.disk.value.jobs != []
      && (c.mayHaveStarted <==> c.backup.Some?)
      && (c.backup.Some? ==>
            && LastJob(w.store.disk.value).backup == Some(c.backup.value.manifest)
            && c.backup.value.id == c.plan.id && c.backup.value.version == c.plan.current)
      && (c.backup.None? ==> Call(c.plan.id, Start) !in w.calls)
  {
    hide After, Inv, Mentions, IsDigest;
    Reachable(ms);
    RunIsOk(After(FRESH, ms));
    RunCallsBefore(After(FRESH, ms));
  }

  lemma RunCallsBefore(w: World)
    requires Inv(w) && w.run.Some?
    ensures CallsBefore(w.calls, w.run.value)
  {
    hide Valid, CallsOk, AcksOk, NoRepeats, OnlyHostCalls, RunOk, CallsBefore;
  }

  /** A repeated identifier executes nothing and writes nothing, whatever versions it names. It is
      acknowledged again exactly if the service can serve it and it names the recorded versions. */
  lemma DuplicateIsIdempotent(ms: seq<Move>, req: Request, wantsAck: bool, now: int, io: Io)
    requires After(FRESH, ms).run.None? && After(FRESH, ms).store.disk.Some?
    requires Find(After(FRESH, ms).store.disk.value.jobs, req.id) < |After(FRESH, ms).store.disk.value.jobs|
    ensures var w := After(FRESH, ms);
      var job := w.store.disk.value.jobs[Find(w.store.disk.value.jobs, req.id)];
      Step(w, Submit(req, wantsAck, now, io)) ==
        if wantsAck && w.up && !w.store.ioFailed && IsRequest(req) && io != Unreadable
           && job.target == req.target && job.current == req.current
        then w.(acks := w.acks + [req.id]) else w
  {
    hide Find, IsRequest, CallsOk, AcksOk, NoRepeats, OnlyHostCalls, RunOk, CallsBefore, Valid, BeginStep, After;
    Reachable(ms);
    var w := After(FRESH, ms);
    BeginKnown(w.store, w.store.disk.value, req, now, io);
  }

  /** A client that has been told its request is reserved will find it in the journal forever. */
  lemma AcknowledgedIsDurable(ms: seq<Move>, k: nat)
    requires k < |After(FRESH, ms).acks|
    ensures var w := After(FRESH, ms);
      w.store.disk.Some? && Find(w.store.disk.value.jobs, w.acks[k]) < |w.store.disk.value.jobs|
  {
    Reachable(ms);
    hide Valid, CallsOk, RunOk;
  }

  /** On a healthy disk with a sane clock the journal never refuses the runner: the write it asks
      for is an allowed transition, and either the run goes on, further down the program, or the
      job it leaves behind is finished. */
  lemma RunnerNeverRefused(ms: seq<Move>, now: int)
    requires After(FRESH, ms).run.Some? && !AtHost(After(FRESH, ms).run.value.pc) && ClockOk(now)
    ensures var w, w' := After(FRESH, ms), Step(After(FRESH, ms), Disk(now, Fine));
      if w'.run.Some? then Order(w'.run.value.pc) > Order(w.run.value.pc)
      else w'.store.disk.Some? && w'.store.disk.value.jobs != [] && LastJob(w'.store.disk.value).state in TERMINAL
  {
    hide Inv, DiskStep, RunOk, WriteAt, AfterSave, Valid, After, SubmitStep, HostStep, RestartStep, LastJob;
    Reachable(ms);
    var w := After(FRESH, ms);
    var c := w.run.value;
    RunIsOk(w);
    if c.pc == ReadState {
      ReadOutcome(w, w.store.disk.value, c, now, Fine);
    } else {
      AllowedWrite(c, LastJob(w.store.disk.value));
      SaveGoes(w, w.store.disk.value, c, now);
    }
  }

  lemma RunIsOk(w: World)
    requires Inv(w) && w.run.Some?
    ensures w.up && !w.store.ioFailed && w.store.disk.Some? && Valid(w.store.disk.value)
      && w.store.disk.value.jobs != []
    ensures RunOk(w.run.value, LastJob(w.store.disk.value))
    ensures w.run.value.plan.id == LastJob(w.store.disk.value).id
  {
    hide Valid, CallsOk, AcksOk, Mentions;
  }

  lemma SaveGoes(w: World, p: Payload, c: Control, now: int)
    requires w.store.disk == Some(p) && Valid(p) && p.jobs != [] && !w.store.ioFailed
    requires c.plan.id == LastJob(p).id && RunOk(c, LastJob(p)) && !AtHost(c.pc) && c.pc != ReadState && ClockOk(now)
    ensures DiskStep(w, c, now, Fine).run == AfterSave(c)
    ensures DiskStep(w, c, now, Fine).store.disk.Some? && DiskStep(w, c, now, Fine).store.disk.value.jobs != []
    ensures var write := WriteAt(c);
      LastJob(DiskStep(w, c, now, Fine).store.disk.value)
      == Moved(LastJob(p), write.state, write.code, write.backup, write.artifact, now)
    ensures LastJob(DiskStep(w, c, now, Fine).store.disk.value).state == WriteAt(c).state
  {
    hide Valid, TransitionStep, WriteAt, AfterSave, Next, IsDigest, Extends, RunOk;
    var write := WriteAt(c);
    UniqueFindLast(p);
    AllowedWrite(c, LastJob(p));
    TransitionGoes(w.store, p, c.plan.id, write.state, write.code, write.backup, write.artifact, now);
    TransitionOutcome(w.store, p, c.plan.id, write.state, write.code, write.backup, write.artifact, now, Fine);
  }

  lemma AllowedWrite(c: Control, job: Job)
    requires RunOk(c, job) && !AtHost(c.pc) && c.pc != ReadState
    ensures WriteAt(c).state in Next(job.state)
    ensures DigestRefusal(WriteAt(c).state == BackedUp, WriteAt(c).backup).None?
    ensures DigestRefusal(WriteAt(c).state == Staged, WriteAt(c).artifact).None?
    ensures AfterSave(c).None? ==> WriteAt(c).state in TERMINAL
    ensures AfterSave(c).Some? ==> Order(c.pc) < Order(AfterSave(c).value.pc)
  {
    hide Mentions, IsDigest;
    WriteGoesOn(c);
    if Order(c.pc) < 20 { AllowedForward(c, job); } else { AllowedBack(c, job); }
    hide RunOk, WriteAt, AfterSave, Next, DigestRefusal;
  }

  lemma WriteGoesOn(c: Control)
    requires !AtHost(c.pc) && c.pc != ReadState
    ensures AfterSave(c).None? ==> WriteAt(c).state in TERMINAL
    ensures AfterSave(c).Some? ==> Order(c.pc) < Order(AfterSave(c).value.pc)
  {
  }

  lemma AllowedForward(c: Control, job: Job)
    requires RunOk(c, job) && !AtHost(c.pc) && Order(c.pc) < 20
    ensures WriteAt(c).state in Next(job.state)
    ensures DigestRefusal(WriteAt(c).state == BackedUp, WriteAt(c).backup).None?
    ensures DigestRefusal(WriteAt(c).state == Staged, WriteAt(c).artifact).None?
  {
    hide Mentions, IsDigest;
  }

  lemma AllowedBack(c: Control, job: Job)
    requires RunOk(c, job) && !AtHost(c.pc) && Order(c.pc) > 20
    ensures WriteAt(c).state in Next(job.state)
    ensures DigestRefusal(WriteAt(c).state == BackedUp, WriteAt(c).backup).None?
    ensures DigestRefusal(WriteAt(c).state == Staged, WriteAt(c).artifact).None?
  {
    hide Mentions, IsDigest;
  }

  // ----------------------------------------------------------------------------------------
  // Every failure is reported under its own code

  /** What is wrong with an answer, by the action that was asked for. */
  function Complaint(action: Action, a: Answer, plan: Plan): Option<Code> {
    match action
    case CurrentVersion =>
      if a == Returned(AVersion(plan.current)) then None
      else if a.Returned? then Some(CurrentVersionChanged) else Some(PreflightFailed)
    case Preflight(_) => if a.Returned? then None else Some(PreflightFailed)
    case PrepareCandidate(_) =>
      if a.Returned? && a.value.ACandidate? && IsDigest(a.value.candidate.archive)
         && a.value.candidate == Candidate(plan.id, plan.target, a.value.candidate.archive)
      then None else Some(SourceVerificationFailed)
    case StopOriginal(_) => if a.Returned? then None else Some(StopFailed)
    case BackupOriginal(_) =>
      if a.Returned? && a.value.ABackup? && IsDigest(a.value.backup.manifest)
         && a.value.backup == Backup(plan.id, plan.current, a.value.backup.manifest)
      then None else Some(BackupFailed)
    case StartCandidate(_, _, _) => if a.Returned? then None else Some(StartFailed)
    case VerifyCandidate(_) => if a.Returned? then None else Some(HealthFailed)
    case RestoreOriginal(_, _, _) => if a.Returned? then None else Some(RestoreFailed)
    case CheckOriginal(_) => if a.Returned? then None else Some(RestoreFailed)
  }

  /** The last thing that the journal says about the last request. */
  ghost predicate Reported(w: World, state: State, time: int, code: Code) {
    && w.store.disk.Some? && w.store.disk.value.jobs != []
    && var job := LastJob(w.store.disk.value);
       && job.state == state && job.events != []
       && job.events[|job.events| - 1] == Event(|job.events| - 1, state, time, Some(code))
  }

  /** A run goes on exactly when there is nothing wrong with the answer. Otherwise a healthy disk soon
      has it: the request failed before the stop, or is rolled back from it, for that reason; and a
      rollback that goes wrong itself is left to an operator. */
  lemma ComplaintIsReported(w: World, a: Answer, t1: int, t2: int)
    requires Inv(w) && w.run.Some? && AtHost(w.run.value.pc) && !a.Died? && ClockOk(t1) && ClockOk(t2)
    ensures var c := w.run.value;
      var action, wrong := ActionAt(c), Complaint(ActionAt(c), a, c.plan);
      var w1 := Step(w, Host(a));
      var w2 := Step(w1, Disk(t1, Fine));
      && (wrong.None? <==> w1.run.Some? && Order(w1.run.value.pc) == Order(c.pc) + 1)
      && (wrong.Some? ==>
            if action.RestoreOriginal? || action.CheckOriginal? then
              w2.run.None? && Reported(w2, ManualActionRequired, t1, wrong.value)
            else
              var early := action.CurrentVersion? || action.Preflight? || action.PrepareCandidate?;
              Reported(Step(w2, Disk(t2, Fine)), if early then Failed else RollingBack, t2, wrong.value))
  {
    hide Inv, RunOk, DiskStep, Valid, IsDigest, WriteAt, AfterSave, Reported, Complaint, ActionAt, AfterHost, Order,
      LastJob;
    StepKeeps(w, Host(a));
    RunIsOk(w);
    var c, p := w.run.value, w.store.disk.value;
    Answered(c, a, LastJob(p).state);
    var wrong := Complaint(ActionAt(c), a, c.plan);
    if wrong.Some? {
      var w1 := Step(w, Host(a));
      RunIsOk(w1);
      if c.pc in {Restore, VerifyOriginal} {
        ManualPoint(c);
        SaveReports(w1, p, c.(pc := SaveManual), t1);
      } else {
        StateOfRun(c, LastJob(p));
        var d := c.(pc := ReadState, failure := wrong);
        ReadOutcome(w1, p, d, t1, Fine);
        StepKeeps(w1, Disk(t1, Fine));
        var w2 := Step(w1, Disk(t1, Fine));
        RunIsOk(w2);
        FailurePoints(w2.run.value);
        SaveReports(w2, p, w2.run.value, t2);
      }
    }
  }

  lemma Answered(c: Control, a: Answer, state: State)
    requires AtHost(c.pc) && !a.Died?
    ensures var wrong, next := Complaint(ActionAt(c), a, c.plan), AfterHost(c, a);
      && next.Some?
      && (wrong.None? ==> Order(next.value.pc) == Order(c.pc) + 1)
      && (wrong.Some? ==>
            && Order(next.value.pc) != Order(c.pc) + 1
            && next.value == if c.pc in {Restore, VerifyOriginal} then c.(pc := SaveManual)
                             else c.(pc := ReadState, failure := wrong))
      && (ActionAt(c).RestoreOriginal? || ActionAt(c).CheckOriginal? <==> c.pc in {Restore, VerifyOriginal})
      && (wrong.Some? && c.pc in {Restore, VerifyOriginal} ==> wrong.value == RestoreFailed)
  {
    hide IsDigest;
  }

  lemma StateOfRun(c: Control, job: Job)
    requires RunOk(c, job) && AtHost(c.pc) && c.pc !in {Restore, VerifyOriginal}
    ensures job.state in BEFORE_CUTOVER <==>
      ActionAt(c).CurrentVersion? || ActionAt(c).Preflight? || ActionAt(c).PrepareCandidate?
  {
    hide Mentions, IsDigest;
  }

  lemma ManualPoint(c: Control)
    ensures WriteAt(c.(pc := SaveManual)) == Write(ManualActionRequired, Some(RestoreFailed), None, None)
    ensures AfterSave(c.(pc := SaveManual)).None?
  {
  }

  lemma FailurePoints(c: Control)
    ensures c.pc == SaveFailed ==> WriteAt(c) == Write(Failed, c.failure, None, None)
    ensures c.pc == SaveRollingBack ==> WriteAt(c) == Write(RollingBack, c.failure, None, None)
  {
  }

  lemma SaveReports(w: World, p: Payload, c: Control, now: int)
    requires w.run == Some(c) && w.store.disk == Some(p) && Valid(p) && p.jobs != [] && !w.store.ioFailed
    requires c.plan.id == LastJob(p).id && RunOk(c, LastJob(p)) && !AtHost(c.pc) && c.pc != ReadState && ClockOk(now)
    requires WriteAt(c).code.Some?
    ensures Reported(Step(w, Disk(now, Fine)), WriteAt(c).state, now, WriteAt(c).code.value)
    ensures Step(w, Disk(now, Fine)).run == AfterSave(c)
  {
    hide DiskStep, WriteAt, AfterSave, RunOk, Valid;
    SaveGoes(w, p, c, now);
  }

  // ----------------------------------------------------------------------------------------
  // An undisturbed run finishes

  /** What a host that does its work answers, with any digest for what it made. */
  function GoodValue(c: Control, digest: string): Value {
    match c.pc
    case FirstVersion => AVersion(c.plan.current)
    case SecondVersion => AVersion(c.plan.current)
    case Prepare => ACandidate(Candidate(c.plan.id, c.plan.target, digest))
    case TakeBackup => ABackup(Backup(c.plan.id, c.plan.current, digest))
    case _ => Nothing
  }

  function GoodMove(c: Control, digest: string, now: int): Move {
    if AtHost(c.pc) then Host(Returned(GoodValue(c, digest))) else Disk(now, Fine)
  }

  /** The world when nothing more goes wrong. */
  ghost function Undisturbed(w: World, digest: string, now: int, n: nat): World
    decreases n
  {
    if n == 0 || w.run.None? then w else Undisturbed(Step(w, GoodMove(w.run.value, digest, now)), digest, now, n - 1)
  }

  /** Where such a run ends: decided by how far it has come, and by whether it has failed before
      or after the stop. */
  function Destination(c: Control, state: State): State {
    if Order(c.pc) < 20 then Complete
    else if c.pc == SaveManual then ManualActionRequired
    else if c.pc == SaveFailed || (c.pc == ReadState && state in BEFORE_CUTOVER) then Failed
    else Restored
  }

  lemma GoodHostStep(c: Control, digest: string, state: State)
    requires AtHost(c.pc) && IsDigest(digest)
    ensures var next := AfterHost(c, Returned(GoodValue(c, digest)));
      next.Some? && Order(next.value.pc) > Order(c.pc) && Destination(next.value, state) == Destination(c, state)
  {
    hide IsDigest, GoodValue, AfterHost, GoodCandidate, GoodBackup;
    GoodHostGoes(c, digest);
  }

  /** To the next point of the program. */
  lemma GoodHostGoes(c: Control, digest: string)
    requires AtHost(c.pc) && IsDigest(digest)
    ensures var next := AfterHost(c, Returned(GoodValue(c, digest)));
      && next.Some? && Order(next.value.pc) == Order(c.pc) + 1
      && next.value == c.(pc := next.value.pc, candidate := next.value.candidate, backup := next.value.backup)
  {
    hide IsDigest;
  }

  lemma GoodSaveStep(c: Control, state: State)
    requires !AtHost(c.pc) && c.pc != ReadState && AfterSave(c).Some?
    ensures Order(AfterSave(c).value.pc) > Order(c.pc)
    ensures Destination(AfterSave(c).value, WriteAt(c).state) == Destination(c, state)
  {
  }

  lemma LastSaveStep(c: Control, state: State)
    requires !AtHost(c.pc) && c.pc != ReadState && AfterSave(c).None?
    ensures WriteAt(c).state == Destination(c, state)
  {
  }

  /** One step of it, from anywhere. */
  lemma UndisturbedStep(w: World, digest: string, now: int)
    requires Inv(w) && w.run.Some? && IsDigest(digest) && ClockOk(now)
    ensures var c, w' := w.run.value, Step(w, GoodMove(w.run.value, digest, now));
      && Inv(w') && w'.store.disk.Some? && w'.store.disk.value.jobs != []
      && var state, state' := LastJob(w.store.disk.value).state, LastJob(w'.store.disk.value).state;
         if w'.run.Some?
         then Order(w'.run.value.pc) > Order(c.pc) && Destination(w'.run.value, state') == Destination(c, state)
         else state' == Destination(c, state)
  {
    hide Inv, RunOk, DiskStep, WriteAt, AfterSave, AfterHost, Destination, GoodValue, IsDigest, Valid, Extends;
    StepKeeps(w, GoodMove(w.run.value, digest, now));
    RunIsOk(w);
    var c, p := w.run.value, w.store.disk.value;
    if AtHost(c.pc) {
      GoodHostStep(c, digest, LastJob(p).state);
    } else if c.pc == ReadState {
      ReadOutcome(w, p, c, now, Fine);
      ReadDestination(c, LastJob(p).state);
    } else {
      SaveGoes(w, p, c, now);
      if AfterSave(c).Some? { GoodSaveStep(c, LastJob(p).state); } else { LastSaveStep(c, LastJob(p).state); }
    }
  }

  lemma ReadDestination(c: Control, state: State)
    requires c.pc == ReadState
    ensures var next := c.(pc := if state in BEFORE_CUTOVER then SaveFailed else SaveRollingBack);
      Order(next.pc) > Order(c.pc) && Destination(next, state) == Destination(c, state)
  {
  }

  /** A run that nothing disturbs any more always finishes, within 27 moves, and its job on disk is
      complete; or failed or restored, if something had gone wrong before; only a run whose restore
      has already failed is left to an operator. */
  lemma {:induction false} UndisturbedFinishes(w: World, digest: string, now: int, n: nat)
    requires Inv(w) && w.run.Some? && IsDigest(digest) && ClockOk(now)
    requires n + Order(w.run.value.pc) >= 27
    ensures var w' := Undisturbed(w, digest, now, n);
      && w'.run.None? && w'.store.disk.Some? && w'.store.disk.value.jobs != []
      && LastJob(w'.store.disk.value).state == Destination(w.run.value, LastJob(w.store.disk.value).state)
    decreases n
  {
    hide Inv, Step, Destination, IsDigest, GoodMove;
    OrderBound(w.run.value.pc);
    var w' := Step(w, GoodMove(w.run.value, digest, now));
    UndisturbedStep(w, digest, now);
    if w'.run.Some? {
      OrderBound(w'.run.value.pc);
      UndisturbedFinishes(w', digest, now, n - 1);
    }
  }

  lemma OrderBound(pc: Pc)
    ensures Order(pc) <= 26
  {
  }
}
