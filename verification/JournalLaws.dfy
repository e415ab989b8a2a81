/** What every journal operation keeps, for every way the disk behaves: validity of the whole
    history, append-only growth, and a recovery that always finishes and never replays. */
module JournalLaws {
  import opened Protocol
  import opened History
  import opened JournalFile

  // ----------------------------------------------------------------------------------------
  // Writes keep the file valid, exactly when the clock is in range

  lemma MentionsGrows(events: seq<Event>, e: Event, s: State)
    ensures Mentions(events + [e], s) <==> Mentions(events, s) || e.state == s
  {
    var longer := events + [e];
    assert longer[|events|] == e;
    assert forall i :: 0 <= i < |events| ==> longer[i] == events[i];
  }

  /** A new job is accepted by the validator if and only if the clock is in range. */
  lemma NewJobKeepsValid(p: Payload, req: Request, now: int)
    requires Valid(p) && IsRequest(req)
    requires Find(p.jobs, req.id) == |p.jobs| && !Blocked(p.jobs) && |p.jobs| < MAX_JOBS
    ensures Valid(p.(jobs := p.jobs + [NewJob(req, now)])) <==> ClockOk(now)
  {
    hide JobOk, NewJob;
    var job := NewJob(req, now);
    var q := p.(jobs := p.jobs + [job]);
    NewJobOk(req, now);
    assert q.jobs[|p.jobs|] == job;
    assert forall i :: 0 <= i < |p.jobs| ==> q.jobs[i] == p.jobs[i];
  }

  lemma NewJobOk(req: Request, now: int)
    requires IsRequest(req)
    ensures NewJob(req, now).id == req.id && (JobOk(NewJob(req, now)) <==> ClockOk(now))
  {
    hide IsRequestId, IsVersion;
    var job := NewJob(req, now);
    assert job.events[0] == Event(0, Requested, now, None);
    assert !Mentions(job.events, BackedUp) && !Mentions(job.events, Staged);
  }

  /** A history never enters a state twice, so what is next has not been mentioned yet. */
  lemma NotMentionedYet(j: Job, s: State)
    requires JobOk(j) && s in Next(j.state)
    ensures !Mentions(j.events, s)
  {
    hide Next, IsRequestId, IsVersion, OptionalDigest;
    NextFalls(j.state, s);
    forall k | 0 <= k < |j.events| ensures j.events[k].state != s {
      RankFalls(j.events, k, |j.events| - 1);
    }
  }

  lemma NextFalls(s: State, t: State)
    requires t in Next(s)
    ensures Rank(t) < Rank(s)
  {
  }

  /** One more event on a job's history is accepted if and only if the clock is in range; the
      bound on the number of events is never what decides. */
  lemma MovedKeepsJob(j: Job, s: State, code: Option<Code>, backup: Option<string>, artifact: Option<string>, now: int)
    requires JobOk(j) && s in Next(j.state)
    requires DigestRefusal(s == BackedUp, backup).None? && DigestRefusal(s == Staged, artifact).None?
    ensures JobOk(Moved(j, s, code, backup, artifact, now)) <==> ClockOk(now)
  {
    var e := Event(|j.events|, s, now, code);
    var events := j.events + [e];
    assert events[|j.events|] == e && events[0] == j.events[0];
    assert forall i :: 0 <= i < |j.events| ==> events[i] == j.events[i];
    MentionsGrows(j.events, e, BackedUp);
    MentionsGrows(j.events, e, Staged);
    HistoryIsShort(j.events);
    NotMentionedYet(j, s);
    hide Next, IsRequestId, IsVersion, Mentions;
  }

  lemma MovedKeepsValid(p: Payload, i: nat, s: State, code: Option<Code>,
                        backup: Option<string>, artifact: Option<string>, now: int)
    requires Valid(p) && i < |p.jobs| && s in Next(p.jobs[i].state)
    requires DigestRefusal(s == BackedUp, backup).None? && DigestRefusal(s == Staged, artifact).None?
    ensures i == |p.jobs| - 1
    ensures Valid(p.(jobs := p.jobs[i := Moved(p.jobs[i], s, code, backup, artifact, now)])) <==> ClockOk(now)
  {
    var job := Moved(p.jobs[i], s, code, backup, artifact, now);
    hide IsHistory, Mentions, IsRequestId, IsVersion, OptionalDigest, Text;
    MovedKeepsJob(p.jobs[i], s, code, backup, artifact, now);
    hide JobOk;
    var q := p.(jobs := p.jobs[i := job]);
    assert forall k :: 0 <= k < |p.jobs| && k != i ==> q.jobs[k] == p.jobs[k];
    assert q.jobs[i] == job;
  }

  // ----------------------------------------------------------------------------------------
  // Append-only growth

  ghost predicate JobExtends(a: Job, b: Job) {
    && b.id == a.id && b.target == a.target && b.current == a.current
    && a.events <= b.events
    && (a.backup.Some? ==> b.backup == a.backup)
    && (a.artifact.Some? ==> b.artifact == a.artifact)
  }

  /** Jobs are never dropped or reordered, and no recorded event or digest is changed. */
  ghost predicate Extends(p: Payload, q: Payload) {
    && |p.jobs| <= |q.jobs|
    && forall i :: 0 <= i < |p.jobs| ==> JobExtends(p.jobs[i], q.jobs[i])
  }

  lemma ExtendsReflexive(p: Payload)
    ensures Extends(p, p)
  {
  }

  lemma ExtendsTransitive(p: Payload, q: Payload, r: Payload)
    requires Extends(p, q) && Extends(q, r)
    ensures Extends(p, r)
  {
    forall i | 0 <= i < |p.jobs| ensures JobExtends(p.jobs[i], r.jobs[i]) {
      assert JobExtends(p.jobs[i], q.jobs[i]) && JobExtends(q.jobs[i], r.jobs[i]);
    }
  }

  // ----------------------------------------------------------------------------------------
  // Every operation, every disk behaviour

  /** Whatever the disk does, `begin` leaves a valid extension of the file. A job is reported as
      created only when it is on disk, and the identifier was new and nothing was active. */
  lemma BeginOutcome(st: Store, p: Payload, req: Request, now: int, io: Io)
    requires st.disk == Some(p) && Valid(p) && IsRequest(req)
    ensures var (st', r) := BeginStep(st, req, now, io);
      var wider := p.(jobs := p.jobs + [NewJob(req, now)]);
      && st'.disk.Some? && Valid(st'.disk.value) && Extends(p, st'.disk.value)
      && (st'.disk == st.disk || st'.disk == Some(wider))
      && (r.Success? && r.value.created ==>
            && st' == Store(Some(wider), false) && r.value.job == NewJob(req, now) && ClockOk(now)
            && Find(p.jobs, req.id) == |p.jobs| && !Blocked(p.jobs))
      && (r.Success? && !r.value.created ==>
            && st' == st && Find(p.jobs, req.id) < |p.jobs| && r.value.job == p.jobs[Find(p.jobs, req.id)]
            && r.value.job.target == req.target && r.value.job.current == req.current)
      && (st'.disk == Some(wider) ==> Find(p.jobs, req.id) == |p.jobs| && !Blocked(p.jobs))
      && (r.Failure? && st'.disk != st.disk ==> st'.ioFailed)
      && (r == Failure(JournalCorrupt) ==> !ClockOk(now))
      && (r == Failure(JournalCapacity) ==> |p.jobs| >= MAX_JOBS)
      && (st.ioFailed ==> st'.ioFailed)
  {
    hide Valid, Text;
    ValidFits(p);
    var wider := p.(jobs := p.jobs + [NewJob(req, now)]);
    assert Extends(p, p) && Extends(p, wider);
    if Find(p.jobs, req.id) == |p.jobs| && !Blocked(p.jobs) && |p.jobs| < MAX_JOBS {
      NewJobKeepsValid(p, req, now);
      if Valid(wider) { ValidFits(wider); }
    }
    assert ReadStep(st, io) == if io == Unreadable then Failure(JournalUnsafe) else Success(p);
  }

  /** Whatever the disk does, `transition` leaves a valid extension of the file, and it can only
      move the last job. The validator and the size limit never refuse a write, unless the clock
      is out of range. */
  lemma TransitionOutcome(st: Store, p: Payload, id: string, s: State, code: Option<Code>,
                          backup: Option<string>, artifact: Option<string>, now: int, io: Io)
    requires st.disk == Some(p) && Valid(p)
    ensures var (st', r) := TransitionStep(st, id, s, code, backup, artifact, now, io);
      var i := Find(p.jobs, id);
      && st'.disk.Some? && Valid(st'.disk.value) && Extends(p, st'.disk.value)
      && (st.ioFailed ==> st'.ioFailed)
      && (r.Success? ==>
            && i == |p.jobs| - 1 && s in Next(p.jobs[i].state) && ClockOk(now)
            && r.value == Moved(p.jobs[i], s, code, backup, artifact, now)
            && st' == Store(Some(p.(jobs := p.jobs[i := r.value])), false))
      && (st'.disk != st.disk ==>
            && i == |p.jobs| - 1 && s in Next(p.jobs[i].state)
            && st'.disk == Some(p.(jobs := p.jobs[i := Moved(p.jobs[i], s, code, backup, artifact, now)])))
      && (r.Failure? && st'.disk != st.disk ==> st'.ioFailed)
      && (r == Failure(JournalCorrupt) ==> !ClockOk(now))
      && r != Failure(JournalCapacity)
      && (r == Failure(InvalidTransition) && backup.None? && artifact.None? ==>
            i == |p.jobs| || s !in Next(p.jobs[i].state))
  {
    hide Valid, Text, ReadStep, MoveStep, TransitionStep, Next, Moved, IsDigest, Extends, Find, DigestRefusal;
    ReadValid(st, p, io);
    TransitionCases(st, id, s, code, backup, artifact, now, io);
    ExtendsReflexive(p);
    var i := Find(p.jobs, id);
    if i < |p.jobs| && s in Next(p.jobs[i].state) {
      MoveOutcome(st, p, i, s, code, backup, artifact, now, io);
    }
  }

  lemma MoveOutcome(st: Store, p: Payload, i: nat, s: State, code: Option<Code>,
                    backup: Option<string>, artifact: Option<string>, now: int, io: Io)
    requires st.disk == Some(p) && Valid(p) && i < |p.jobs| && s in Next(p.jobs[i].state)
    ensures i == |p.jobs| - 1
    ensures var (st', r) := MoveStep(st, p, i, s, code, backup, artifact, now, io);
      var job := Moved(p.jobs[i], s, code, backup, artifact, now);
      var q := p.(jobs := p.jobs[i := job]);
      && (st'.disk == st.disk || (st'.disk == Some(q) && Valid(q) && Extends(p, q)))
      && (st.ioFailed ==> st'.ioFailed)
      && (r.Success? ==> ClockOk(now) && r.value == job && st' == Store(Some(q), false))
      && (r.Failure? && st'.disk != st.disk ==> st'.ioFailed)
      && (r == Failure(JournalCorrupt) ==> !ClockOk(now))
      && r != Failure(JournalCapacity)
      && (r == Failure(InvalidTransition) ==> backup.Some? || artifact.Some?)
  {
    hide Valid, Text, SaveStep, Next, Moved, IsDigest, Extends;
    OnlyActiveMoves(p, i, s);
    if DigestRefusal(s == BackedUp, backup).None? && DigestRefusal(s == Staged, artifact).None? {
      MovedKeepsValid(p, i, s, code, backup, artifact, now);
      MovedExtends(p, i, s, code, backup, artifact, now);
      SaveCases(st, p.(jobs := p.jobs[i := Moved(p.jobs[i], s, code, backup, artifact, now)]), io);
    }
  }

  lemma OnlyActiveMoves(p: Payload, i: nat, s: State)
    requires Valid(p) && i < |p.jobs| && s in Next(p.jobs[i].state)
    ensures i == |p.jobs| - 1
  {
    hide JobsOk, Distinct;
  }

  /** Everything a save can do to the file and report. */
  lemma SaveCases(st: Store, q: Payload, io: Io)
    ensures var (st', refused) := SaveStep(st, q, io);
      && (refused == Some(JournalCorrupt) ==> !Valid(q))
      && refused !in {Some(JournalCapacity), Some(InvalidTransition)}
      && (refused.None? ==> st' == Store(Some(q), false) && Valid(q))
      && (st'.disk == st.disk || (st'.disk == Some(q) && Valid(q)))
      && (refused.Some? && st'.disk != st.disk ==> st'.ioFailed)
      && (st.ioFailed ==> st'.ioFailed)
  {
    hide Valid, Text;
    if Valid(q) { ValidFits(q); }
  }

  /** Neither a known identifier nor an active job lets `begin` write anything. */
  lemma BeginReadsOnly(st: Store, p: Payload, req: Request, now: int, io: Io)
    requires st.disk == Some(p) && Valid(p)
    requires Find(p.jobs, req.id) < |p.jobs| || Blocked(p.jobs)
    ensures BeginStep(st, req, now, io).0 == st
    ensures BeginStep(st, req, now, io).1.Success? ==> !BeginStep(st, req, now, io).1.value.created
  {
    hide Valid, ReadStep, SaveStep, Blocked, Find;
    ReadValid(st, p, io);
  }

  /** What a known identifier is answered. */
  lemma BeginKnown(st: Store, p: Payload, req: Request, now: int, io: Io)
    requires st.disk == Some(p) && Valid(p) && Find(p.jobs, req.id) < |p.jobs|
    ensures var job := p.jobs[Find(p.jobs, req.id)];
      BeginStep(st, req, now, io) ==
        (st, if io == Unreadable then Failure(JournalUnsafe)
             else if job.target != req.target || job.current != req.current then Failure(RequestIdReused)
             else Success(Reservation(job, false)))
  {
    hide Valid, ReadStep, SaveStep, Blocked, Find;
    ReadValid(st, p, io);
  }

  // ----------------------------------------------------------------------------------------
  // Exactly when, and with which code

  ghost predicate Known(p: Payload, id: string) {
    exists i :: 0 <= i < |p.jobs| && p.jobs[i].id == id
  }

  ghost predicate Repeated(p: Payload, req: Request) {
    exists i ::
      0 <= i < |p.jobs| && p.jobs[i].id == req.id && p.jobs[i].target == req.target && p.jobs[i].current == req.current
  }

  /** Some job is under way, or waits for an operator. */
  ghost predicate Unsettled(p: Payload) {
    exists i :: 0 <= i < |p.jobs| && p.jobs[i].state !in {Complete, Restored, Failed}
  }

  /** What `begin` answers, for every readable or unreadable file, request, clock and disk: a new
      request is reserved exactly if the file can be read, nothing has its identifier, every earlier
      job is complete, restored or failed, there is room, and the write goes well. */
  lemma BeginCodes(st: Store, p: Payload, req: Request, now: int, io: Io)
    requires st.disk == Some(p) && Valid(p) && IsRequest(req)
    ensures var (st', r) := BeginStep(st, req, now, io);
      var known, same, open_ := Known(p, req.id), Repeated(p, req), Unsettled(p);
      var admitted := io != Unreadable && !known && !open_ && |p.jobs| < 128;
      var timely := 0 <= now <= 253_402_300_799;
      && (r == Failure(JournalUnsafe) <==> io == Unreadable)
      && (r == Failure(RequestIdReused) <==> io != Unreadable && known && !same)
      && (r.Success? && !r.value.created <==> io != Unreadable && same)
      && (r == Failure(RecoveryRequired) <==> io != Unreadable && !known && open_)
      && (r == Failure(JournalCapacity) <==> io != Unreadable && !known && !open_ && |p.jobs| == 128)
      && (r == Failure(JournalIo) <==> admitted && (st.ioFailed || (timely && io in {FailsBefore, FailsAfter})))
      && (r == Failure(JournalCorrupt) <==> admitted && !st.ioFailed && !timely)
      && (r.Success? && r.value.created <==> admitted && !st.ioFailed && timely && io == Fine)
      && st' == if admitted && !st.ioFailed && timely then Replaced(st, p.jobs + [NewJob(req, now)], io) else st
  {
    hide Valid, Text, ReadStep, SaveStep, Known, Repeated, Unsettled;
    ReadValid(st, p, io);
    BoundedJobs(p);
    KnownMeans(p, req);
    if Find(p.jobs, req.id) == |p.jobs| && !Blocked(p.jobs) && |p.jobs| < MAX_JOBS {
      NewJobKeepsValid(p, req, now);
      SaveCodes(st, p.(jobs := p.jobs + [NewJob(req, now)]), io);
    }
  }

  /** The file after it was to be replaced: one that reports an error is the old one or the new one,
      and nothing is written after that. */
  function Replaced(st: Store, jobs: seq<Job>, io: Io): Store {
    Store(if io == FailsBefore then st.disk else Some(Payload(1, jobs)), io in {FailsBefore, FailsAfter})
  }

  lemma BoundedJobs(p: Payload)
    requires Valid(p)
    ensures |p.jobs| <= 128
    ensures Blocked(p.jobs) <==> Unsettled(p)
  {
    if i :| 0 <= i < |p.jobs| && p.jobs[i].state !in {Complete, Restored, Failed} {
      assert Active(p.jobs[i].state);
    }
  }

  lemma KnownMeans(p: Payload, req: Request)
    requires Valid(p)
    ensures var i := Find(p.jobs, req.id);
      && (i < |p.jobs| <==> Known(p, req.id))
      && (i < |p.jobs| && p.jobs[i].target == req.target && p.jobs[i].current == req.current <==> Repeated(p, req))
  {
    hide JobsOk, Active;
    UniqueFind(p);
  }

  lemma SaveCodes(st: Store, q: Payload, io: Io)
    ensures SaveStep(st, q, io).1 ==
      if st.ioFailed then Some(JournalIo) else if !Valid(q) then Some(JournalCorrupt)
      else if io in {FailsBefore, FailsAfter} then Some(JournalIo) else None
    ensures SaveStep(st, q, io).0 == if st.ioFailed || !Valid(q) then st else Replaced(st, q.jobs, io)
  {
    hide Valid, Text;
    if Valid(q) {
      ValidFits(q);
      OneSchema(q);
    }
  }

  lemma OneSchema(q: Payload)
    requires Valid(q)
    ensures q == Payload(1, q.jobs)
  {
  }

  /** What `transition` answers, in the same way: only the last job can move, along the relation, with
      the one digest that the new state records, and the new event says where, when and why. */
  lemma TransitionCodes(st: Store, p: Payload, id: string, s: State, code: Option<Code>,
                        backup: Option<string>, artifact: Option<string>, now: int, io: Io)
    requires st.disk == Some(p) && Valid(p)
    ensures var (st', r) := TransitionStep(st, id, s, code, backup, artifact, now, io);
      var allowed := io != Unreadable && p.jobs != [] && LastJob(p).id == id && s in Next(LastJob(p).state);
      var missing := if s == BackedUp then backup.None? || !IsDigest(backup.value)
                     else s == Staged && backup.None? && (artifact.None? || !IsDigest(artifact.value));
      var stray := if s == BackedUp then !missing && artifact.Some?
                   else backup.Some? || (s != Staged && artifact.Some?);
      var written := allowed && !missing && !stray;
      var timely := 0 <= now <= 253_402_300_799;
      && (r == Failure(JournalUnsafe) <==> io == Unreadable)
      && (r == Failure(InvalidTransition) <==> io != Unreadable && (!allowed || stray))
      && (r == Failure(BadRequest) <==> allowed && missing)
      && (r == Failure(JournalIo) <==> written && (st.ioFailed || (timely && io in {FailsBefore, FailsAfter})))
      && (r == Failure(JournalCorrupt) <==> written && !st.ioFailed && !timely)
      && (r.Success? <==> written && !st.ioFailed && timely && io == Fine)
      && (st' != st ==> written && !st.ioFailed && timely)
      && (r.Success? ==>
            var last := LastJob(p);
            && r.value == Job(id, last.target, last.current, s, if s == BackedUp then backup else last.backup,
                              if s == Staged then artifact else last.artifact,
                              last.events + [Event(|last.events|, s, now, code)])
            && st' == Replaced(st, p.jobs[|p.jobs| - 1 := r.value], Fine))
      && (written && !st.ioFailed && timely ==>
            st' == Replaced(st, p.jobs[|p.jobs| - 1 := Moved(LastJob(p), s, code, backup, artifact, now)], io))
  {
    hide Valid, Text, ReadStep, SaveStep, Next, IsDigest, Extends, Find;
    ReadValid(st, p, io);
    OnlyLastMoves(p, id, s);
    TransitionOutcome(st, p, id, s, code, backup, artifact, now, io);
    var i := Find(p.jobs, id);
    if i < |p.jobs| && s in Next(p.jobs[i].state)
       && DigestRefusal(s == BackedUp, backup).None? && DigestRefusal(s == Staged, artifact).None? {
      MovedKeepsValid(p, i, s, code, backup, artifact, now);
      SaveCodes(st, p.(jobs := p.jobs[i := Moved(p.jobs[i], s, code, backup, artifact, now)]), io);
    }
  }

  lemma OnlyLastMoves(p: Payload, id: string, s: State)
    requires Valid(p)
    ensures var i := Find(p.jobs, id);
      (i < |p.jobs| && s in Next(p.jobs[i].state)) <==>
        (p.jobs != [] && LastJob(p).id == id && s in Next(LastJob(p).state))
    ensures p.jobs != [] && LastJob(p).id == id ==> Find(p.jobs, id) == |p.jobs| - 1
  {
    hide JobsOk, Distinct;
    UniqueFind(p);
    OnlyLastUnfinished(p);
    var i := Find(p.jobs, id);
    if i < |p.jobs| - 1 { assert Next(p.jobs[i].state) == {}; }
  }

  /** What recovery writes about the job that was interrupted. */
  lemma RecoveryRecords(st: Store, p: Payload, now: int, io: Io)
    requires st.disk == Some(p) && Valid(p) && RecoverStep(st, now, io).0.disk != st.disk
    ensures p.jobs != []
    ensures var last := LastJob(p);
      var (state, code) := if last.state in {Requested, Validated, Staging, Staged}
                           then (Failed, InterruptedBeforeCutover) else (ManualActionRequired, RecoveryRequired);
      var event := Event(|last.events|, state, now, Some(code));
      RecoverStep(st, now, io).0.disk ==
        Some(p.(jobs := p.jobs[|p.jobs| - 1 := last.(state := state, events := last.events + [event])]))
  {
    hide Valid, TransitionStep, RecoverStep, Next, Find, Extends;
    RecoverUnfolds(st, p, now, io);
    var last := LastJob(p);
    TerminalOrNext(last.state);
    TransitionOutcome(st, p, last.id, RecoveryTarget(last.state), Some(RecoveryCode(last.state)), None, None, now, io);
  }

  lemma MovedExtends(p: Payload, i: nat, s: State, code: Option<Code>,
                     backup: Option<string>, artifact: Option<string>, now: int)
    requires Valid(p) && i < |p.jobs| && s in Next(p.jobs[i].state)
    ensures Extends(p, p.(jobs := p.jobs[i := Moved(p.jobs[i], s, code, backup, artifact, now)]))
  {
    hide Next, IsHistory, IsRequestId, IsVersion, OptionalDigest, Mentions;
    var j := p.jobs[i];
    assert JobOk(j);
    NotMentionedYet(j, s);
    var q := p.(jobs := p.jobs[i := Moved(j, s, code, backup, artifact, now)]);
    assert forall k :: 0 <= k < |p.jobs| && k != i ==> q.jobs[k] == p.jobs[k];
  }

  // ----------------------------------------------------------------------------------------
  // Recovery

  ghost predicate AllTerminal(p: Payload) {
    forall i :: 0 <= i < |p.jobs| ==> p.jobs[i].state in TERMINAL
  }

  predicate Unfinished(p: Payload) {
    p.jobs != [] && p.jobs[|p.jobs| - 1].state !in TERMINAL
  }

  function LastJob(p: Payload): Job
    requires p.jobs != []
  {
    p.jobs[|p.jobs| - 1]
  }

  ghost function RecoveryMove(st: Store, p: Payload, now: int, io: Io): (Store, Result<Job>)
    requires p.jobs != []
  {
    TransitionStep(st, LastJob(p).id, RecoveryTarget(LastJob(p).state), Some(RecoveryCode(LastJob(p).state)),
                   None, None, now, io)
  }

  lemma RecoverUnfolds(st: Store, p: Payload, now: int, io: Io)
    requires st.disk == Some(p) && Valid(p)
    ensures RecoverStep(st, now, io) ==
      if st.ioFailed then (st, Some(JournalIo))
      else if io == Unreadable then (st, Some(JournalUnsafe))
      else if !Unfinished(p) then (st, None)
      else (RecoveryMove(st, p, now, io).0,
            if RecoveryMove(st, p, now, io).1.Failure? then Some(RecoveryMove(st, p, now, io).1.code) else None)
  {
    hide Valid, ReadStep, TransitionStep, SaveStep;
    ReadValid(st, p, io);
  }

  lemma TerminalOrNext(s: State)
    requires s !in TERMINAL
    ensures RecoveryTarget(s) in Next(s) && RecoveryTarget(s) in {Failed, ManualActionRequired}
  {
  }

  /** Finished jobs are untouched; an unfinished one is failed if it was caught before cutover
      and needs an operator otherwise. */
  ghost predicate Recovered(p: Payload, q: Payload) {
    && |q.jobs| == |p.jobs|
    && forall i :: 0 <= i < |p.jobs| ==>
         if p.jobs[i].state in TERMINAL then q.jobs[i] == p.jobs[i]
         else q.jobs[i].state == RecoveryTarget(p.jobs[i].state)
  }

  lemma LastMoved(p: Payload, q: Payload)
    requires Valid(p) && p.jobs != [] && |q.jobs| == |p.jobs| && q.jobs[..|p.jobs| - 1] == p.jobs[..|p.jobs| - 1]
    requires LastJob(p).state !in TERMINAL && LastJob(q).state == RecoveryTarget(LastJob(p).state)
    ensures Recovered(p, q) && AllTerminal(q)
  {
    hide Valid, Next, RecoveryTarget;
    OnlyLastUnfinished(p);
    TerminalOrNext(LastJob(p).state);
    forall i | 0 <= i < |p.jobs| - 1 ensures q.jobs[i] == p.jobs[i] {
      SameBefore(p.jobs, q.jobs, |p.jobs| - 1, i);
    }
  }

  lemma SameBefore(a: seq<Job>, b: seq<Job>, n: nat, i: nat)
    requires i < n <= |a| && n <= |b| && a[..n] == b[..n]
    ensures a[i] == b[i]
  {
    assert a[..n][i] == b[..n][i];
  }

  /** Recovery keeps the file valid and append-only whatever the disk does, and one that reports
      no error leaves every job terminal. The transition relation never refuses it. */
  lemma RecoveryOutcome(st: Store, p: Payload, now: int, io: Io)
    requires st.disk == Some(p) && Valid(p)
    ensures RecoverStep(st, now, io).0.disk.Some?
    ensures Valid(RecoverStep(st, now, io).0.disk.value)
    ensures Extends(p, RecoverStep(st, now, io).0.disk.value)
    ensures RecoverStep(st, now, io).0.disk == st.disk || Recovered(p, RecoverStep(st, now, io).0.disk.value)
    ensures RecoverStep(st, now, io).1 == None ==>
      && Recovered(p, RecoverStep(st, now, io).0.disk.value)
      && AllTerminal(RecoverStep(st, now, io).0.disk.value)
      && !RecoverStep(st, now, io).0.ioFailed
    ensures RecoverStep(st, now, io).1 !in {Some(InvalidTransition), Some(JournalCapacity)}
    ensures RecoverStep(st, now, io).1 == Some(JournalCorrupt) ==> !ClockOk(now)
  {
    hide *;
    RecoverUnfolds(st, p, now, io);
    ExtendsReflexive(p);
    if Unfinished(p) {
      RecoveryMoves(st, p, now, io);
    } else {
      NothingToRecover(p);
    }
  }

  lemma NothingToRecover(p: Payload)
    requires Valid(p) && !Unfinished(p)
    ensures Recovered(p, p) && AllTerminal(p)
  {
    OnlyLastUnfinished(p);
  }

  lemma RecoveryMoves(st: Store, p: Payload, now: int, io: Io)
    requires st.disk == Some(p) && Valid(p) && Unfinished(p)
    ensures RecoveryMove(st, p, now, io).0.disk.Some?
    ensures Valid(RecoveryMove(st, p, now, io).0.disk.value)
    ensures Extends(p, RecoveryMove(st, p, now, io).0.disk.value)
    ensures RecoveryMove(st, p, now, io).0.disk == st.disk
      || (Recovered(p, RecoveryMove(st, p, now, io).0.disk.value)
           && AllTerminal(RecoveryMove(st, p, now, io).0.disk.value))
    ensures RecoveryMove(st, p, now, io).1.Success? ==>
      RecoveryMove(st, p, now, io).0.disk != st.disk && !RecoveryMove(st, p, now, io).0.ioFailed
    ensures RecoveryMove(st, p, now, io).1 !in {Failure(InvalidTransition), Failure(JournalCapacity)}
    ensures RecoveryMove(st, p, now, io).1 == Failure(JournalCorrupt) ==> !ClockOk(now)
  {
    hide Valid, Text, TransitionStep, Next, Extends, Moved, Find;
    var last := LastJob(p);
    UniqueFindLast(p);
    TerminalOrNext(last.state);
    TransitionOutcome(st, p, last.id, RecoveryTarget(last.state), Some(RecoveryCode(last.state)), None, None, now, io);
    MovedIsNew(last, RecoveryTarget(last.state), Some(RecoveryCode(last.state)), now);
    var st' := RecoveryMove(st, p, now, io).0;
    if st'.disk != st.disk {
      LastMoved(p, st'.disk.value);
    }
  }

  lemma MovedIsNew(job: Job, s: State, code: Option<Code>, now: int)
    ensures Moved(job, s, code, None, None, now).state == s && Moved(job, s, code, None, None, now) != job
  {
    assert |Moved(job, s, code, None, None, now).events| == |job.events| + 1;
  }

  lemma ReadValid(st: Store, p: Payload, io: Io)
    requires st.disk == Some(p) && Valid(p)
    ensures ReadStep(st, io) == if io == Unreadable then Failure(JournalUnsafe) else Success(p)
  {
    hide Valid, Text;
    ValidFits(p);
  }

  /** Recovery always succeeds on a healthy disk with a sane clock, and repeating it after a
      success changes nothing, whatever the clock says by then. */
  lemma RecoveryIdempotent(st: Store, p: Payload, now: int, io: Io, later: int)
    requires st.disk == Some(p) && Valid(p) && !st.ioFailed && ClockOk(now)
    ensures io == Fine ==> RecoverStep(st, now, io).1 == None
    ensures RecoverStep(st, now, io).1 == None ==>
      RecoverStep(RecoverStep(st, now, io).0, later, io) == RecoverStep(st, now, io)
  {
    var (st', refused) := RecoverStep(st, now, io);
    RecoveryOutcome(st, p, now, io);
    RecoverUnfolds(st, p, now, io);
    RecoverUnfolds(st', st'.disk.value, later, io);
    if Unfinished(p) && io == Fine {
      RecoveryGoes(st, p, now);
    }
    hide Valid, Recovered, RecoverStep, RecoveryMove, Extends;
  }

  lemma RecoveryGoes(st: Store, p: Payload, now: int)
    requires st.disk == Some(p) && Valid(p) && !st.ioFailed && ClockOk(now) && Unfinished(p)
    ensures RecoveryMove(st, p, now, Fine).1.Success?
  {
    var last := LastJob(p);
    UniqueFindLast(p);
    TerminalOrNext(last.state);
    hide Valid, TransitionStep, Next;
    TransitionGoes(st, p, last.id, RecoveryTarget(last.state), Some(RecoveryCode(last.state)), None, None, now);
  }

  lemma UniqueFindLast(p: Payload)
    requires Valid(p) && p.jobs != []
    ensures Find(p.jobs, LastJob(p).id) == |p.jobs| - 1
  {
    UniqueFind(p);
  }

  /** On a healthy disk an allowed transition with a sane clock is never refused. */
  lemma TransitionGoes(st: Store, p: Payload, id: string, s: State, code: Option<Code>,
                       backup: Option<string>, artifact: Option<string>, now: int)
    requires st.disk == Some(p) && Valid(p) && !st.ioFailed && ClockOk(now)
    requires Find(p.jobs, id) < |p.jobs| && s in Next(p.jobs[Find(p.jobs, id)].state)
    requires DigestRefusal(s == BackedUp, backup).None? && DigestRefusal(s == Staged, artifact).None?
    ensures TransitionStep(st, id, s, code, backup, artifact, now, Fine).1.Success?
  {
    var i := Find(p.jobs, id);
    hide Valid, Text, ReadStep, SaveStep;
    ReadValid(st, p, Fine);
    MovedKeepsValid(p, i, s, code, backup, artifact, now);
    SaveValid(st, p.(jobs := p.jobs[i := Moved(p.jobs[i], s, code, backup, artifact, now)]), Fine);
  }

  lemma SaveValid(st: Store, q: Payload, io: Io)
    requires Valid(q) && !st.ioFailed
    ensures io !in {FailsBefore, FailsAfter} ==> SaveStep(st, q, io) == (Store(Some(q), false), None)
    ensures io in {FailsBefore, FailsAfter} ==> SaveStep(st, q, io).1 == Some(JournalIo)
  {
    hide Valid, Text;
    ValidFits(q);
  }

  lemma UniqueFind(p: Payload)
    requires Valid(p)
    ensures forall i :: 0 <= i < |p.jobs| ==> Find(p.jobs, p.jobs[i].id) == i
  {
    forall i | 0 <= i < |p.jobs| ensures Find(p.jobs, p.jobs[i].id) == i {
      var k := Find(p.jobs, p.jobs[i].id);
      assert !(i < k);
      assert p.jobs[k].id == p.jobs[i].id;
    }
  }
}
