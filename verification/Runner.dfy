/** The transaction runner as it is written: straight-line code with an exception path, on top of
    the journal. A ghost copy of the world records the moves that were made; the code is proved to
    follow the machine of module Transaction, so every law about reachable worlds is about it. */
module Runner {
  import opened Protocol
  import opened History
  import JF = JournalFile
  import opened Transaction
  import opened TransactionLaws
  import opened JournalLaws

  /** How the guarded part of a run ends. */
  datatype Ending =
    | Finished(job: Job)
    | ActionFailed(code: Code)
    | Escaped(code: Code)   // a journal error, deliberately not handled
    | Gone                  // the process died

  datatype Reply = Answered(result: Result<Job>) | NoReply

  /** How far the code has come, and how often it has asked the host and used the disk. */
  datatype Position = Position(moves: seq<Move>, asked: nat, saved: nat)

  class TransactionRunner {
    const journal: JF.Journal
    const hasExecutor: bool

    // What the host answers, what the disk does and what the clock says, call after call.
    const answers: nat -> Answer
    const disks: nat -> JF.Io
    const clock: nat -> int
    var asked: nat
    var saved: nat

    ghost var world: World
    ghost var moves: seq<Move>

    ghost predicate Valid()
      reads this, journal
    {
      && world == After(FRESH, moves)
      && world.store == journal.View()
    }

    ghost function Pos(): Position
      reads this
    {
      Position(moves, asked, saved)
    }

    /** These moves are answers of the host and operations of the disk, in the order in which the
        outside world gives them, from one pair of counters to another. */
    ghost predicate Scripted(ms: seq<Move>, p: Position, q: Position) {
      if ms == [] then p.asked == q.asked && p.saved == q.saved
      else
        var rest := ms[..|ms| - 1];
        match ms[|ms| - 1]
        case Host(a) => q.asked > 0 && a == answers(q.asked - 1) && Scripted(rest, p, q.(asked := q.asked - 1))
        case Disk(now, io) =>
          q.saved > 0 && now == clock(q.saved - 1) && io == disks(q.saved - 1)
          && Scripted(rest, p, q.(saved := q.saved - 1))
        case _ => false
    }

    /** From here to there, only the host and the disk were asked. */
    ghost predicate Follows(p: Position, q: Position) {
      p.moves <= q.moves && Scripted(q.moves[|p.moves|..], p, q)
    }

    lemma {:induction false} ScriptedOn(ms: seq<Move>, more: seq<Move>, p: Position, q: Position, r: Position)
      requires Scripted(ms, p, q) && Scripted(more, q, r)
      ensures Scripted(ms + more, p, r)
      decreases |more|
    {
      if more == [] {
        assert ms + more == ms;
        ScriptedFrom(ms, p, q, r);
      } else {
        var rest := more[..|more| - 1];
        assert (ms + more)[..|ms + more| - 1] == ms + rest;
        match more[|more| - 1]
        case Host(_) => ScriptedOn(ms, rest, p, q, r.(asked := r.asked - 1));
        case Disk(_, _) => ScriptedOn(ms, rest, p, q, r.(saved := r.saved - 1));
      }
    }

    /** Only the counters matter. */
    lemma {:induction false} ScriptedFrom(ms: seq<Move>, p: Position, q: Position, r: Position)
      requires Scripted(ms, p, q) && r.asked == q.asked && r.saved == q.saved
      ensures Scripted(ms, p, r)
      decreases |ms|
    {
      if ms != [] {
        var rest := ms[..|ms| - 1];
        match ms[|ms| - 1]
        case Host(_) => ScriptedFrom(rest, p, q.(asked := q.asked - 1), r.(asked := r.asked - 1));
        case Disk(_, _) => ScriptedFrom(rest, p, q.(saved := q.saved - 1), r.(saved := r.saved - 1));
      }
    }

    lemma {:induction false} ScriptedCounts(ms: seq<Move>, p: Position, q: Position)
      requires Scripted(ms, p, q)
      ensures p.asked <= q.asked && p.saved <= q.saved
      decreases |ms|
    {
      if ms != [] {
        match ms[|ms| - 1]
        case Host(_) => ScriptedCounts(ms[..|ms| - 1], p, q.(asked := q.asked - 1));
        case Disk(_, _) => ScriptedCounts(ms[..|ms| - 1], p, q.(saved := q.saved - 1));
      }
    }

    lemma FollowsOn()
      ensures forall p :: Follows(p, p)
      ensures forall p, q, r :: Follows(p, q) && Follows(q, r) ==> Follows(p, r)
      ensures forall p, q :: Follows(p, q) ==> p.asked <= q.asked && p.saved <= q.saved
    {
      forall p, q | Follows(p, q) ensures p.asked <= q.asked && p.saved <= q.saved {
        ScriptedCounts(q.moves[|p.moves|..], p, q);
      }
      forall p, q, r | Follows(p, q) && Follows(q, r) ensures Follows(p, r) {
        ScriptedOn(q.moves[|p.moves|..], r.moves[|q.moves|..], p, q, r);
        assert r.moves[|p.moves|..] == q.moves[|p.moves|..] + r.moves[|q.moves|..];
      }
    }

    lemma FollowsPrefix(p: Position, q: Position)
      requires Follows(p, q)
      ensures p.moves <= q.moves
    {
    }

    lemma FollowsOne(p: Position, q: Position, m: Move)
      requires q.moves == p.moves + [m]
      requires
        || (m == Host(answers(p.asked)) && q.asked == p.asked + 1 && q.saved == p.saved)
        || (m == Disk(clock(p.saved), disks(p.saved)) && q.saved == p.saved + 1 && q.asked == p.asked)
      ensures Follows(p, q)
    {
      var ms := q.moves[|p.moves|..];
      assert ms == [m] && ms[..0] == [];
    }

    /** Inside a transaction, at this point of the machine. */
    ghost predicate At(c: Control, thread: nat)
      reads this, journal
    {
      Valid() && world.run == Some(c) && world.up && journal.Owned(thread)
    }

    /** No transaction is under way. */
    ghost predicate Ended()
      reads this, journal
    {
      Valid() && world.run.None?
    }

    constructor (journal: JF.Journal, hasExecutor: bool, answers: nat -> Answer, disks: nat -> JF.Io, clock: nat -> int)
      requires journal.View() == FRESH.store
      ensures Ended() && world == FRESH && this.journal == journal
    {
      this.journal, this.hasExecutor := journal, hasExecutor;
      this.answers, this.disks, this.clock := answers, disks, clock;
      asked, saved := 0, 0;
      world, moves := FRESH, [];
    }

    /** Invoke a host action. */
    method Ask(action: Action, ghost c: Control, thread: nat) returns (a: Answer)
      requires At(c, thread) && AtHost(c.pc) && action == ActionAt(c)
      modifies this`asked, this`world, this`moves
      ensures a == Died <==> AfterHost(c, a).None?
      ensures a != Died ==> At(AfterHost(c, a).value, thread)
      ensures world == Step(old(world), Host(a)) && Follows(old(Pos()), Pos()) && asked == old(asked) + 1
      ensures world.acks == old(world.acks)
      ensures a == Died ==> Ended() && !world.up
    {
      hide Step, After, AfterHost, ActionAt, Follows;
      a := answers(asked);
      asked := asked + 1;
      world, moves := Step(world, Host(a)), moves + [Host(a)];
      AfterOne(old(moves), Host(a));
      StepsToHost(old(world), c, a);
      FollowsOne(old(Pos()), Pos(), Host(a));
    }

    /** Record a state; the caller goes on only if it is durable. */
    method Record(plan: Plan, write: Write, ghost c: Control, thread: nat) returns (r: Result<Job>)
      requires At(c, thread) && !AtHost(c.pc) && c.pc != ReadState && c.plan == plan && WriteAt(c) == write
      modifies this`saved, this`world, this`moves, journal`disk, journal`ioFailed
      ensures r.Success? && AfterSave(c).Some? ==> At(AfterSave(c).value, thread)
      ensures r.Success? && AfterSave(c).None? ==> Ended()
      ensures r.Failure? ==> Ended()
      ensures r.Success? ==> Recorded(r.value) && r.value.state == write.state && r.value.id == plan.id
      ensures r.Success? && AfterSave(c).None? ==> Done(plan.id)
      ensures r.Failure? ==> !Done(plan.id)
      ensures world.up && Follows(old(Pos()), Pos()) && world.acks == old(world.acks)
      ensures saved == old(saved) + 1 && world.calls == old(world.calls)
      // A healthy disk takes it, and the last event of the job says why.
      ensures disks(old(saved)) == JF.Fine && ClockOk(clock(old(saved))) ==> r.Success?
      ensures r.Success? ==> LastCode(r.value) == write.code
    {
      hide JF.TransitionStep, JF.ReadStep, WriteAt, AfterSave, After, Follows, Inv;
      Reachable(moves);
      RecordReports(world, c, clock(saved), disks(saved));
      var now, io := clock(saved), disks(saved);
      saved := saved + 1;
      r := journal.Transition(thread, plan.id, write.state, write.code, write.backup, write.artifact, now, io);
      world, moves := Step(world, Disk(now, io)), moves + [Disk(now, io)];
      AfterOne(old(moves), Disk(now, io));
      FollowsOne(old(Pos()), Pos(), Disk(now, io));
    }

    /** The request has its final state on disk, and the write that put it there was seen to succeed. */
    ghost predicate Done(id: string)
      reads this
    {
      !world.store.ioFailed && Concluded(world.store, id)
    }

    /** The state in which the journal has the request. */
    ghost predicate InState(id: string, s: State)
      reads this
    {
      && world.store.disk.Some?
      && var jobs := world.store.disk.value.jobs;
         JF.Find(jobs, id) < |jobs| && jobs[JF.Find(jobs, id)].state == s
    }

    /** The answer to a client is the job as the journal now holds it. */
    ghost predicate Recorded(job: Job)
      reads this
    {
      world.store.disk.Some? && job in world.store.disk.value.jobs
    }

    /** Look up the durable state of the running job. */
    method DurableState(plan: Plan, ghost c: Control, thread: nat) returns (r: Result<State>)
      requires At(c, thread) && c.pc == ReadState && c.plan == plan
      modifies this`saved, this`world, this`moves
      ensures r.Success? ==> At(c.(pc := if r.value in BEFORE_CUTOVER then SaveFailed else SaveRollingBack), thread)
      ensures r.Failure? ==> Ended() && !Done(plan.id)
      ensures world.up && Follows(old(Pos()), Pos()) && world.acks == old(world.acks)
      ensures r.Success? <==> disks(old(saved)) != JF.Unreadable
      ensures r.Success? ==> InState(plan.id, r.value)
      ensures world.store == old(world.store) && world.calls == old(world.calls) && saved == old(saved) + 1
    {
      hide JF.ReadStep, After, Follows, Inv, Concluded, JF.Find, Step;
      Reachable(moves);
      RunReads(world, c, clock(saved), disks(saved));
      var now, io := clock(saved), disks(saved);
      saved := saved + 1;
      var read := journal.Read(io);
      world, moves := Step(world, Disk(now, io)), moves + [Disk(now, io)];
      AfterOne(old(moves), Disk(now, io));
      FollowsOne(old(Pos()), Pos(), Disk(now, io));
      if read.Failure? {
        return Failure(read.code);
      }
      var jobs := read.value.jobs;
      var i := JF.Search(jobs, plan.id);
      return if i == |jobs| then Failure(InternalError) else Success(jobs[i].state);
    }

    /** Where a guarded segment leaves the run: at the next point of the program, or stopped. */
    ghost predicate Left(stop: Option<Ending>, c: Control, thread: nat)
      reads this, journal
    {
      match stop
      case None => At(c, thread)
      case Some(ActionFailed(code)) => At(c, thread) && c.pc == ReadState && c.failure == Some(code)
      case Some(Escaped(_)) => Ended() && world.up && !Done(c.plan.id)
      case Some(Gone) => Ended() && !world.up
      case Some(Finished(_)) => false
    }

    /** The enrolled version is still the expected one, and preflight passes. Done twice: before
        anything is recorded, and again right before the downtime. */
    method CheckHost(plan: Plan, thread: nat, ghost c0: Control) returns (stop: Option<Ending>, ghost c: Control)
      requires At(c0, thread) && c0.pc in {FirstVersion, SecondVersion} && c0.plan == plan
      modifies this`asked, this`world, this`moves
      ensures Left(stop, c, thread) && Follows(old(Pos()), Pos()) && world.acks == old(world.acks)
      ensures stop.None? ==> c == c0.(pc := if c0.pc == FirstVersion then SaveValidated else SaveStopRequested)
      ensures stop.Some? ==> c == c0.(pc := c.pc, failure := c.failure)
      ensures asked > old(asked)
    {
      hide After, Step, At, Ended, Valid, Follows;
      FollowsOn();
      c := c0;
      var a := Ask(CurrentVersion, c, thread);
      if a.Died? { return Some(Gone), c; }
      c := AfterHost(c, a).value;
      if a.Raised? { return Some(ActionFailed(PreflightFailed)), c; }
      if a.value != AVersion(plan.current) { return Some(ActionFailed(CurrentVersionChanged)), c; }
      a := Ask(Preflight(plan), c, thread);
      if a.Died? { return Some(Gone), c0; }
      c := AfterHost(c, a).value;
      stop := if a.Raised? then Some(ActionFailed(PreflightFailed)) else None;
    }

    method Announce(plan: Plan, thread: nat, ghost c0: Control) returns (stop: Option<Ending>, ghost c: Control)
      requires At(c0, thread) && c0.pc == SaveValidated && c0.plan == plan
      modifies this`saved, this`world, this`moves, journal`disk, journal`ioFailed
      ensures Left(stop, c, thread) && Follows(old(Pos()), Pos()) && world.acks == old(world.acks)
      ensures stop.None? ==> c == c0.(pc := Prepare)
      ensures stop.Some? ==> c == c0.(pc := c.pc)
    {
      hide After, Step, At, Ended, Valid, IsDigest, Recorded, Follows;
      FollowsOn();
      c := c0;
      var r := Record(plan, Write(Validated, None, None, None), c, thread);
      if r.Failure? { return Some(Escaped(r.code)), c; }
      c := AfterSave(c).value;
      r := Record(plan, Write(Staging, None, None, None), c, thread);
      if r.Failure? { return Some(Escaped(r.code)), c; }
      c := AfterSave(c).value;
      stop := None;
    }

    method Stage(plan: Plan, thread: nat, ghost c0: Control)
      returns (stop: Option<Ending>, candidate: Candidate, ghost c: Control)
      requires At(c0, thread) && c0.pc == SaveValidated && c0.plan == plan
      modifies this`asked, this`saved, this`world, this`moves, journal`disk, journal`ioFailed
      ensures Left(stop, c, thread) && Follows(old(Pos()), Pos()) && world.acks == old(world.acks)
      ensures stop.None? ==> c == c0.(pc := SecondVersion, candidate := Some(candidate))
      ensures stop.Some? ==> c == c0.(pc := c.pc, failure := c.failure)
    {
      hide After, Step, At, Ended, Valid, IsDigest, Recorded, Follows, Done;
      FollowsOn();
      candidate := Candidate("", plan.target, "");
      stop, c := Announce(plan, thread, c0);
      if stop.Some? { return stop, candidate, c; }
      var a := Ask(PrepareCandidate(plan), c, thread);
      if a.Died? { return Some(Gone), candidate, c; }
      c := AfterHost(c, a).value;
      if a.Raised? || !GoodCandidate(plan, a.value) {
        return Some(ActionFailed(SourceVerificationFailed)), candidate, c;
      }
      candidate := a.value.candidate;
      var r := Record(plan, Write(Staged, None, None, Some(candidate.archive)), c, thread);
      if r.Failure? { return Some(Escaped(r.code)), candidate, c0; }
      c := AfterSave(c).value;
      stop := None;
    }

    method BringDown(plan: Plan, thread: nat, ghost c0: Control) returns (stop: Option<Ending>, ghost c: Control)
      requires At(c0, thread) && c0.pc == SaveStopRequested && c0.plan == plan
      modifies this`asked, this`saved, this`world, this`moves, journal`disk, journal`ioFailed
      ensures Left(stop, c, thread) && Follows(old(Pos()), Pos()) && world.acks == old(world.acks)
      ensures stop.None? ==> c == c0.(pc := SaveBackupStarted)
      ensures stop.Some? ==> c == c0.(pc := c.pc, failure := c.failure)
    {
      hide After, Step, At, Ended, Valid, IsDigest, Recorded, Follows;
      FollowsOn();
      c := c0;
      var r := Record(plan, Write(StopRequested, None, None, None), c, thread);
      if r.Failure? { return Some(Escaped(r.code)), c; }
      c := AfterSave(c).value;
      var a := Ask(StopOriginal(plan), c, thread);
      if a.Died? { return Some(Gone), c; }
      c := AfterHost(c, a).value;
      if a.Raised? { return Some(ActionFailed(StopFailed)), c; }
      r := Record(plan, Write(Stopped, None, None, None), c, thread);
      if r.Failure? { return Some(Escaped(r.code)), c; }
      c := AfterSave(c).value;
      stop := None;
    }

    method BackUp(plan: Plan, thread: nat, ghost c0: Control)
      returns (stop: Option<Ending>, backup: Option<Backup>, ghost c: Control)
      requires At(c0, thread) && c0.pc == SaveBackupStarted && c0.plan == plan && c0.backup == None
        && !c0.mayHaveStarted
      modifies this`asked, this`saved, this`world, this`moves, journal`disk, journal`ioFailed
      ensures Left(stop, c, thread) && Follows(old(Pos()), Pos()) && world.acks == old(world.acks)
      ensures stop.None? ==> backup.Some? && c == c0.(pc := SaveStartRequested, backup := backup)
      ensures stop.Some? ==> backup.None? && c == c0.(pc := c.pc, failure := c.failure)
    {
      hide After, Step, At, Ended, Valid, IsDigest, Recorded, Follows;
      FollowsOn();
      backup, c := None, c0;
      var r := Record(plan, Write(BackupStarted, None, None, None), c, thread);
      if r.Failure? { return Some(Escaped(r.code)), None, c; }
      c := AfterSave(c).value;
      var a := Ask(BackupOriginal(plan), c, thread);
      if a.Died? { return Some(Gone), None, c; }
      c := AfterHost(c, a).value;
      if a.Raised? || !GoodBackup(plan, a.value) { return Some(ActionFailed(BackupFailed)), None, c; }
      r := Record(plan, Write(BackedUp, None, Some(a.value.backup.manifest), None), c, thread);
      if r.Failure? { return Some(Escaped(r.code)), None, c0; }
      c := AfterSave(c).value;
      backup := Some(a.value.backup);
      stop := None;
    }

    /** The candidate may have started from the moment the start is recorded. */
    method StartIt(plan: Plan, candidate: Candidate, backup: Option<Backup>, thread: nat, ghost c0: Control)
      returns (stop: Option<Ending>, mayHaveStarted: bool, ghost c: Control)
      requires At(c0, thread) && c0 == Control(plan, SaveStartRequested, Some(candidate), backup, false, None)
      modifies this`asked, this`saved, this`world, this`moves, journal`disk, journal`ioFailed
      ensures Left(stop, c, thread) && c.plan == plan && Follows(old(Pos()), Pos()) && world.acks == old(world.acks)
      ensures stop.None? ==> c == c0.(pc := SaveStarted, mayHaveStarted := true) && mayHaveStarted
      ensures stop.Some? && stop.value.ActionFailed? ==>
        c == c0.(pc := c.pc, failure := c.failure, mayHaveStarted := true) && mayHaveStarted
    {
      hide After, Step, At, Ended, Valid, IsDigest, Recorded, Follows;
      FollowsOn();
      mayHaveStarted, c := false, c0;
      var r := Record(plan, Write(StartRequested, None, None, None), c, thread);
      if r.Failure? { return Some(Escaped(r.code)), mayHaveStarted, c; }
      c := AfterSave(c).value;
      mayHaveStarted := true;
      var a := Ask(StartCandidate(plan, Some(candidate), backup), c, thread);
      if a.Died? { return Some(Gone), mayHaveStarted, c; }
      c := AfterHost(c, a).value;
      stop := if a.Raised? then Some(ActionFailed(StartFailed)) else None;
    }

    method VerifyIt(plan: Plan, thread: nat, ghost c0: Control) returns (stop: Option<Ending>, ghost c: Control)
      requires At(c0, thread) && c0.pc == SaveStarted && c0.plan == plan
      modifies this`asked, this`saved, this`world, this`moves, journal`disk, journal`ioFailed
      ensures Left(stop, c, thread) && c.plan == plan && Follows(old(Pos()), Pos()) && world.acks == old(world.acks)
      ensures stop.None? ==> c == c0.(pc := SaveVerified)
      ensures stop.Some? && stop.value.ActionFailed? ==> c == c0.(pc := c.pc, failure := c.failure)
    {
      hide After, Step, At, Ended, Valid, IsDigest, Recorded, Follows;
      FollowsOn();
      c := c0;
      var r := Record(plan, Write(Started, None, None, None), c, thread);
      if r.Failure? { return Some(Escaped(r.code)), c; }
      c := AfterSave(c).value;
      var a := Ask(VerifyCandidate(plan), c, thread);
      if a.Died? { return Some(Gone), c; }
      c := AfterHost(c, a).value;
      stop := if a.Raised? then Some(ActionFailed(HealthFailed)) else None;
    }

    method StartAndVerify(plan: Plan, candidate: Candidate, backup: Option<Backup>, thread: nat, ghost c0: Control)
      returns (stop: Option<Ending>, mayHaveStarted: bool, ghost c: Control)
      requires At(c0, thread) && c0 == Control(plan, SaveStartRequested, Some(candidate), backup, false, None)
      modifies this`asked, this`saved, this`world, this`moves, journal`disk, journal`ioFailed
      ensures Left(stop, c, thread) && c.plan == plan && Follows(old(Pos()), Pos()) && world.acks == old(world.acks)
      ensures stop.None? ==> c == c0.(pc := SaveVerified, mayHaveStarted := true)
      ensures stop.Some? && stop.value.ActionFailed? ==>
        c == c0.(pc := c.pc, failure := c.failure, mayHaveStarted := true) && mayHaveStarted
    {
      hide After, Step, At, Ended, Valid, Recorded, Follows;
      FollowsOn();
      stop, mayHaveStarted, c := StartIt(plan, candidate, backup, thread, c0);
      if stop.None? {
        stop, c := VerifyIt(plan, thread, c);
      }
    }

    method Conclude(plan: Plan, thread: nat, ghost c0: Control) returns (ending: Ending)
      requires At(c0, thread) && c0.pc == SaveVerified && c0.plan == plan
      modifies this`asked, this`saved, this`world, this`moves, journal`disk, journal`ioFailed
      ensures Ended() && world.up && Follows(old(Pos()), Pos()) && world.acks == old(world.acks)
        && (ending.Finished? || ending.Escaped?)
      ensures ending.Finished? ==> Recorded(ending.job) && ending.job.state == Complete && ending.job.id == plan.id
      ensures ending.Finished? <==> Done(plan.id)
      ensures ending.Finished? ==> LastCode(ending.job).None?
    {
      hide After, Step, At, Ended, Valid, Recorded, Follows, LastCode;
      FollowsOn();
      ghost var c := c0;
      var r := Record(plan, Write(Verified, None, None, None), c, thread);
      if r.Failure? { return Escaped(r.code); }
      c := AfterSave(c).value;
      r := Record(plan, Write(Complete, None, None, None), c, thread);
      return if r.Success? then Finished(r.value) else Escaped(r.code);
    }

    /** The downtime: stop, backup, start, verify. */
    method Replace(plan: Plan, candidate: Candidate, thread: nat, ghost c0: Control)
      returns (stop: Option<Ending>, backup: Option<Backup>, mayHaveStarted: bool, ghost c: Control)
      requires At(c0, thread) && c0 == Control(plan, SaveStopRequested, Some(candidate), None, false, None)
      modifies this`asked, this`saved, this`world, this`moves, journal`disk, journal`ioFailed
      ensures Left(stop, c, thread) && c.plan == plan && Follows(old(Pos()), Pos()) && world.acks == old(world.acks)
      ensures stop.None? ==> c == c0.(pc := SaveVerified, backup := backup, mayHaveStarted := true)
      ensures stop.Some? && stop.value.ActionFailed? ==>
        c == c0.(pc := c.pc, failure := c.failure, backup := backup, mayHaveStarted := mayHaveStarted)
    {
      hide After, Step, At, Ended, Valid, Recorded, Follows;
      FollowsOn();
      backup, mayHaveStarted := None, false;
      stop, c := BringDown(plan, thread, c0);
      if stop.Some? { return stop, backup, mayHaveStarted, c; }
      stop, backup, c := BackUp(plan, thread, c);
      if stop.Some? { return stop, backup, mayHaveStarted, c; }
      stop, mayHaveStarted, c := StartAndVerify(plan, candidate, backup, thread, c);
    }

    /** The guarded part of a run. It hands back the two local variables that the exception path
        reads: the backup receipt and whether a candidate may have started. */
    method Forward(plan: Plan, thread: nat)
      returns (ending: Ending, backup: Option<Backup>, mayHaveStarted: bool, ghost c: Control)
      requires At(Initial(plan), thread)
      modifies this`asked, this`saved, this`world, this`moves, journal`disk, journal`ioFailed
      ensures ending.Finished? ==> Ended() && world.up && Recorded(ending.job) && ending.job.state == Complete
      ensures ending.Finished? ==> Done(plan.id) && ending.job.id == plan.id && LastCode(ending.job).None?
      ensures c.plan == plan
      ensures !ending.Finished? ==> Left(Some(ending), c, thread)
      ensures ending.ActionFailed? ==>
        c == Control(plan, ReadState, c.candidate, backup, mayHaveStarted, Some(ending.code))
      ensures Follows(old(Pos()), Pos()) && world.acks == old(world.acks)
      // The host is asked exactly about an upgrade.
      ensures if Newer(plan.target, plan.current) then asked > old(asked)
              else ending == ActionFailed(NotAnUpgrade) && world == old(world) && Pos() == old(Pos())
    {
      hide After, Step, At, Ended, Valid, Recorded, Follows;
      FollowsOn();
      backup, mayHaveStarted, c := None, false, Initial(plan);
      if !Newer(plan.target, plan.current) {
        return ActionFailed(NotAnUpgrade), backup, mayHaveStarted, c;
      }
      var stop, candidate;
      stop, c := CheckHost(plan, thread, c);
      ghost var first := Pos();
      if stop.Some? { return stop.value, backup, mayHaveStarted, c; }
      stop, candidate, c := Stage(plan, thread, c);
      if stop.Some? { return stop.value, backup, mayHaveStarted, c; }
      stop, c := CheckHost(plan, thread, c);
      if stop.Some? { return stop.value, backup, mayHaveStarted, c; }
      stop, backup, mayHaveStarted, c := Replace(plan, candidate, thread, c);
      if stop.Some? { return stop.value, backup, mayHaveStarted, c; }
      ending := Conclude(plan, thread, c);
    }

    /** The exception path. */
    method Unwind(plan: Plan, code: Code, backup: Option<Backup>, mayHaveStarted: bool, thread: nat, ghost c0: Control)
      returns (ending: Ending)
      requires At(c0, thread) && c0 == Control(plan, ReadState, c0.candidate, backup, mayHaveStarted, Some(code))
      modifies this`asked, this`saved, this`world, this`moves, journal`disk, journal`ioFailed
      ensures Ended() && !ending.ActionFailed? && Follows(old(Pos()), Pos()) && world.acks == old(world.acks)
      ensures ending.Finished? ==> Recorded(ending.job) && ending.job.state in {Failed, Restored, ManualActionRequired}
      ensures ending.Finished? ==> Done(plan.id) && ending.job.id == plan.id
      ensures ending.Escaped? ==> !Done(plan.id)
      ensures ending.Gone? <==> !world.up
      ensures ending.Finished? ==>
        LastCode(ending.job) == Some(if ending.job.state == ManualActionRequired then RestoreFailed else code)
      // A request that has only been reserved is failed, without a question to the host.
      ensures old(InState(plan.id, Requested)) ==>
        && asked == old(asked) && world.calls == old(world.calls)
        && (disks(old(saved)) == JF.Fine && disks(old(saved) + 1) == JF.Fine && ClockOk(clock(old(saved) + 1)) ==>
              ending.Finished? && ending.job.state == Failed)
    {
      hide After, Step, At, Ended, Valid, Recorded, Follows, Done, LastCode;
      FollowsOn();
      var state := DurableState(plan, c0, thread);
      if state.Failure? { return Escaped(state.code); }
      if state.value in BEFORE_CUTOVER {
        var r := Record(plan, Write(Failed, Some(code), None, None), c0.(pc := SaveFailed), thread);
        return if r.Success? then Finished(r.value) else Escaped(r.code);
      }
      ghost var c := c0.(pc := SaveRollingBack);
      var r := Record(plan, Write(RollingBack, Some(code), None, None), c, thread);
      if r.Failure? { return Escaped(r.code); }
      ending := RollBack(plan, code, backup, mayHaveStarted, thread, AfterSave(c).value);
    }

    method RollBack(plan: Plan, code: Code, backup: Option<Backup>, mayHaveStarted: bool, thread: nat,
                    ghost c0: Control)
      returns (ending: Ending)
      requires At(c0, thread) && c0 == Control(plan, Restore, c0.candidate, backup, mayHaveStarted, Some(code))
      modifies this`asked, this`saved, this`world, this`moves, journal`disk, journal`ioFailed
      ensures Ended() && !ending.ActionFailed? && Follows(old(Pos()), Pos()) && world.acks == old(world.acks)
      ensures ending.Finished? ==> Recorded(ending.job) && ending.job.state in {Restored, ManualActionRequired}
      ensures ending.Finished? ==> Done(plan.id) && ending.job.id == plan.id
      ensures ending.Escaped? ==> !Done(plan.id)
      ensures ending.Gone? <==> !world.up
      ensures ending.Finished? ==>
        LastCode(ending.job) == Some(if ending.job.state == ManualActionRequired then RestoreFailed else code)
    {
      hide LastCode, After, Step, At, Ended, Valid, Recorded, Follows, AfterHost, AfterSave, WriteAt, ActionAt, Done;
      FollowsOn();
      ghost var c := c0;
      BackPoints(c0);
      var a := Ask(RestoreOriginal(plan, backup, mayHaveStarted), c, thread);
      if a.Died? { return Gone; }
      c := AfterHost(c, a).value;
      if a.Returned? {
        a := Ask(CheckOriginal(plan), c, thread);
        if a.Died? { return Gone; }
        c := AfterHost(c, a).value;
      }
      var write := if a.Raised? then Write(ManualActionRequired, Some(RestoreFailed), None, None)
                   else Write(Restored, Some(code), None, None);
      var r := Record(plan, write, c, thread);
      return if r.Success? then Finished(r.value) else Escaped(r.code);
    }

    method Run(plan: Plan, thread: nat) returns (ending: Ending)
      requires At(Initial(plan), thread)
      modifies this`asked, this`saved, this`world, this`moves, journal`disk, journal`ioFailed
      ensures Ended() && !ending.ActionFailed? && Follows(old(Pos()), Pos()) && world.acks == old(world.acks)
      ensures ending.Finished? ==> Recorded(ending.job) && ending.job.state in TERMINAL
      ensures ending.Finished? ==> Done(plan.id) && ending.job.id == plan.id
      ensures ending.Escaped? ==> !Done(plan.id)
      ensures ending.Gone? <==> !world.up
      ensures ending.Finished? ==> (ending.job.state == Complete <==> LastCode(ending.job).None?)
      ensures Newer(plan.target, plan.current) ==> asked > old(asked)
      ensures !Newer(plan.target, plan.current) && old(InState(plan.id, Requested)) ==>
        && asked == old(asked) && world.calls == old(world.calls)
        && (disks(old(saved)) == JF.Fine && disks(old(saved) + 1) == JF.Fine && ClockOk(clock(old(saved) + 1)) ==>
              ending.Finished? && ending.job.state == Failed && LastCode(ending.job) == Some(NotAnUpgrade))
    {
      hide After, Step, At, Ended, Valid, Recorded, Follows, Newer, Initial, LastCode, Done;
      FollowsOn();
      var backup, mayHaveStarted;
      ghost var c;
      ending, backup, mayHaveStarted, c := Forward(plan, thread);
      ghost var forward := Pos();
      if ending.ActionFailed? {
        ending := Unwind(plan, ending.code, backup, mayHaveStarted, thread, c);
      }
    }

    /** Why a request is turned away before the journal is looked at. */
    ghost function Refusal(req: Request, lock: JF.LockFile): Option<Code>
      reads journal
    {
      if !IsRequest(req) then Some(BadRequest)
      else if journal.ioFailed || lock == JF.Broken then Some(JournalIo)
      else if lock == JF.HeldElsewhere then Some(Busy)
      else if lock == JF.Untrusted then Some(JournalUnsafe)
      else if !hasExecutor then Some(ExecutorUnavailable)
      else None
    }

    /** The reservation that the next use of the disk makes. */
    ghost function Reserving(req: Request, wantsAck: bool): Move
      reads this
    {
      Submit(req, wantsAck, clock(saved), disks(saved))
    }

    ghost function Reservation(req: Request): Result<JF.Reservation>
      reads this, journal
    {
      JF.BeginStep(journal.View(), req, clock(saved), disks(saved)).1
    }

    /** What becomes of a request that is let in: a reservation is attempted, and answered as it is
        found unless it is a new one. A new one is run as the host and the disk have it, and reported
        as done exactly if it is. */
    ghost predicate Served(req: Request, wantsAck: bool, before: Position, begun: Result<JF.Reservation>, reply: Reply,
                           ack: Option<Job>)
      reads this
    {
      var reserving := Submit(req, wantsAck, clock(before.saved), disks(before.saved));
      var reserved := Position(before.moves + [reserving], before.asked, before.saved + 1);
      && |moves| > |before.moves| && moves[|before.moves|] == reserving
      && ack == (if begun.Success? && wantsAck then Some(begun.value.job) else None)
      && if begun.Success? && begun.value.created then
           Follows(reserved, Pos()) && (reply.Answered? ==> (reply.result.Success? <==> Done(req.id)))
         else
           Pos() == reserved
             && reply == Answered(if begun.Success? then Success(begun.value.job) else Failure(begun.code))
    }

    /** The host is asked about a new request exactly if the target is the greater version; any other
        one fails for that reason, without a call of the host. */
    ghost predicate OnlyUpgrades(req: Request, before: Position, calls: seq<Call>, reply: Reply)
      reads this
    {
      if Ordinal(req.target) > Ordinal(req.current) then asked > before.asked
      else
        && asked == before.asked && world.calls == calls
        && (disks(before.saved + 1) == JF.Fine && disks(before.saved + 2) == JF.Fine && ClockOk(clock(before.saved + 2))
            ==> FailedFor(NotAnUpgrade, reply))
    }

    ghost predicate FailedFor(code: Code, reply: Reply) {
      && reply.Answered? && reply.result.Success? && reply.result.value.state == Failed
      && LastCode(reply.result.value) == Some(code)
    }

    /** One request, start to finish, under the process lock. The acknowledgement, when the client
        wants one, follows the durable reservation and precedes every host action for it. */
    method Execute(req: Request, wantsAck: bool, thread: nat, lock: JF.LockFile)
      returns (reply: Reply, ack: Option<Job>)
      requires Ended() && world.up && !journal.localLock
      modifies this`asked, this`saved, this`world, this`moves, journal
      ensures Ended() && (reply.Answered? ==> !journal.localLock && world.up)
      ensures reply == NoReply ==> !world.up
      ensures reply.Answered? && reply.result.Success? ==>
        Recorded(reply.result.value) && reply.result.value.id == req.id && wantsAck == ack.Some?
      ensures ack.Some? ==> wantsAck && ack.value.id == req.id
      ensures world.acks == if ack.Some? then old(world.acks) + [req.id] else old(world.acks)
      ensures old(moves) <= moves
      // Turned away: nothing happens, unless taking the lock breaks the journal.
      ensures var refusal := old(Refusal(req, lock));
        refusal.Some? ==>
          && reply == Answered(Failure(refusal.value)) && ack.None? && asked == old(asked) && saved == old(saved)
          && moves == old(moves) + if IsRequest(req) && !old(journal.ioFailed) && lock == JF.Broken then [LockBreaks]
            else []
      ensures old(Refusal(req, lock)).None? ==> Served(req, wantsAck, old(Pos()), old(Reservation(req)), reply, ack)
      ensures var begun := old(Reservation(req));
        old(Refusal(req, lock)).None? && begun.Success? && begun.value.created ==>
          OnlyUpgrades(req, old(Pos()), old(world.calls), reply)
    {
      hide After, Step, AtHost, Initial, JF.BeginStep, Served, OnlyUpgrades, IsRequest, Recorded;
      if !IsRequest(req) {
        return Answered(Failure(BadRequest)), None;
      }
      var refused := journal.Acquire(thread, lock);
      if refused.Some? {
        if journal.ioFailed && !world.store.ioFailed {
          world, moves := LatchedWorld(world), moves + [LockBreaks];
          AfterOne(old(moves), LockBreaks);
        }
        return Answered(Failure(refused.value)), None;
      }
      if !hasExecutor {
        journal.Release();
        return Answered(Failure(ExecutorUnavailable)), None;
      }
      reply, ack := ExecuteLocked(req, wantsAck, thread);
      journal.Release();
    }

    /** Inside the critical section. */
    method ExecuteLocked(req: Request, wantsAck: bool, thread: nat) returns (reply: Reply, ack: Option<Job>)
      requires Ended() && world.up && !world.store.ioFailed && IsRequest(req) && journal.Owned(thread)
      modifies this`asked, this`saved, this`world, this`moves, journal`disk, journal`ioFailed
      ensures Ended() && (reply.Answered? <==> world.up)
      ensures reply.Answered? && reply.result.Success? ==>
        Recorded(reply.result.value) && reply.result.value.id == req.id && wantsAck == ack.Some?
      ensures ack.Some? ==> wantsAck && ack.value.id == req.id
      ensures world.acks == if ack.Some? then old(world.acks) + [req.id] else old(world.acks)
      ensures old(moves) <= moves
      ensures Served(req, wantsAck, old(Pos()), old(Reservation(req)), reply, ack)
      ensures old(Reservation(req)).Success? && old(Reservation(req)).value.created ==>
        OnlyUpgrades(req, old(Pos()), old(world.calls), reply)
    {
      hide After, Step, AtHost, Initial, JF.BeginStep, Follows, Concluded, Newer, LastCode, Ordinal, IsRequestId,
        IsVersion;
      NewerMeans(req.target, req.current);
      ack := None;
      var plan := Plan(req.id, req.target, req.current);
      var begun := Reserve(req, wantsAck, thread);
      if begun.Failure? {
        return Answered(Failure(begun.code)), None;
      }
      if wantsAck {
        ack := Some(begun.value.job);
      }
      if !begun.value.created {
        return Answered(Success(begun.value.job)), ack;
      }
      ghost var reserved := Pos();
      var ending := Run(plan, thread);
      FollowsPrefix(reserved, Pos());
      match ending
      case Finished(job) => reply := Answered(Success(job));
      case Escaped(code) => reply := Answered(Failure(code));
      case Gone => reply := NoReply;
      case ActionFailed(_) => assert false;
    }

    method Reserve(req: Request, wantsAck: bool, thread: nat) returns (r: Result<JF.Reservation>)
      requires Ended() && world.up && !world.store.ioFailed && IsRequest(req) && journal.Owned(thread)
      modifies this`saved, this`world, this`moves, journal`disk, journal`ioFailed
      ensures world.up && r == old(Reservation(req)) && world.calls == old(world.calls)
      ensures Pos() == Position(old(moves) + [old(Reserving(req, wantsAck))], old(asked), old(saved) + 1)
      ensures r.Success? && r.value.created ==> At(Initial(PlanOf(req)), thread) && InState(req.id, Requested)
      ensures r.Failure? || !r.value.created ==> Ended()
      ensures r.Success? ==> Recorded(r.value.job) && r.value.job.id == req.id
      ensures world.acks == if r.Success? && wantsAck then old(world.acks) + [req.id] else old(world.acks)
    {
      hide JF.BeginStep, After, Initial;
      var now, io := clock(saved), disks(saved);
      saved := saved + 1;
      r := journal.Begin(thread, req, now, io);
      ghost var m := Submit(req, wantsAck, now, io);
      Reachable(moves);
      BeginReports(old(world.store), req, now, io);
      world, moves := Step(world, m), moves + [m];
      AfterOne(old(moves), m);
    }
  }

  /** What the machine does at the points of the rollback. */
  lemma BackPoints(c: Control)
    ensures var d := c.(pc := Restore);
      ActionAt(d) == RestoreOriginal(c.plan, c.backup, c.mayHaveStarted)
      && AfterHost(d, Died) == None && AfterHost(d, Raised) == Some(c.(pc := SaveManual))
      && forall v :: AfterHost(d, Returned(v)) == Some(c.(pc := VerifyOriginal))
    ensures var d := c.(pc := VerifyOriginal);
      ActionAt(d) == CheckOriginal(c.plan)
      && AfterHost(d, Died) == None && AfterHost(d, Raised) == Some(c.(pc := SaveManual))
      && forall v :: AfterHost(d, Returned(v)) == Some(c.(pc := SaveRestored))
    ensures var d := c.(pc := SaveManual);
      WriteAt(d) == Write(ManualActionRequired, Some(RestoreFailed), None, None) && AfterSave(d) == None
    ensures var d := c.(pc := SaveRestored);
      WriteAt(d) == Write(Restored, c.failure, None, None) && AfterSave(d) == None
  {
  }

  /** The journal holds a final state for the request. */
  ghost predicate Concluded(st: JF.Store, id: string) {
    && st.disk.Some? && JF.Find(st.disk.value.jobs, id) < |st.disk.value.jobs|
    && st.disk.value.jobs[JF.Find(st.disk.value.jobs, id)].state in TERMINAL
  }

  /** While a request runs it has no final state on disk. */
  lemma RunUnfinished(w: World)
    requires Inv(w) && w.run.Some?
    ensures !Concluded(w.store, w.run.value.plan.id)
  {
    hide History.Valid, CallsOk, AcksOk, NoRepeats, OnlyHostCalls, CallsBefore, Mentions, IsDigest;
    RunIsOk(w);
    UniqueFindLast(w.store.disk.value);
    RunNotTerminal(w.run.value, LastJob(w.store.disk.value));
  }

  lemma RunNotTerminal(c: Control, job: Job)
    requires RunOk(c, job)
    ensures job.state !in TERMINAL
  {
    hide Mentions, IsDigest;
  }

  /** The reason that the last event of a job gives. */
  function LastCode(job: Job): Option<Code> {
    if job.events == [] then None else job.events[|job.events| - 1].code
  }

  /** What the exception path finds. */
  lemma RunReads(w: World, c: Control, now: int, io: JF.Io)
    requires Inv(w) && w.run == Some(c) && c.pc == ReadState
    ensures !Concluded(w.store, c.plan.id) && w.store.disk.Some?
    ensures JF.ReadStep(w.store, io)
      == if io == JF.Unreadable then Failure(JournalUnsafe) else Success(w.store.disk.value)
    ensures var jobs := w.store.disk.value.jobs;
      var i := JF.Find(jobs, c.plan.id);
      && i < |jobs|
      && Step(w, Disk(now, io)) == w.(run := if io == JF.Unreadable then None else
           Some(c.(pc := if jobs[i].state in BEFORE_CUTOVER then SaveFailed else SaveRollingBack)))
  {
    hide Inv, RunOk, History.Valid, JF.ReadStep, DiskStep, Concluded, Next, Mentions, IsDigest;
    RunIsOk(w);
    RunUnfinished(w);
    var p := w.store.disk.value;
    ReadValid(w.store, p, io);
    UniqueFindLast(p);
    ReadOutcome(w, p, c, now, io);
  }

  /** What a saving point reports, and what is then on disk. */
  lemma RecordReports(w: World, c: Control, now: int, io: JF.Io)
    requires Inv(w) && w.run == Some(c) && !AtHost(c.pc) && c.pc != ReadState
    ensures var write := WriteAt(c);
      var (st', r) := JF.TransitionStep(w.store, c.plan.id, write.state, write.code, write.backup, write.artifact, now,
        io);
      && (r.Success? ==>
            && st'.disk.Some? && r.value in st'.disk.value.jobs && r.value.state == write.state
            && r.value.id == c.plan.id
            && LastCode(r.value) == write.code
            && (AfterSave(c).None? ==> !st'.ioFailed && Concluded(st', c.plan.id)))
      && (io == JF.Fine && ClockOk(now) ==> r.Success?)
      && (r.Failure? ==> st'.ioFailed || !Concluded(st', c.plan.id))
  {
    hide Inv, RunOk, History.Valid, JF.TransitionStep, WriteAt, AfterSave, Next, Extends;
    RunIsOk(w);
    RunUnfinished(w);
    var p, write := w.store.disk.value, WriteAt(c);
    UniqueFindLast(p);
    AllowedWrite(c, LastJob(p));
    TransitionOutcome(w.store, p, c.plan.id, write.state, write.code, write.backup, write.artifact, now, io);
    var (st', r) := JF.TransitionStep(w.store, c.plan.id, write.state, write.code, write.backup, write.artifact, now,
      io);
    FindExtends(p, st'.disk.value, c.plan.id);
    if io == JF.Fine && ClockOk(now) {
      TransitionGoes(w.store, p, c.plan.id, write.state, write.code, write.backup, write.artifact, now);
    }
    if r.Success? {
      assert st'.disk.value.jobs[|p.jobs| - 1] == r.value;
    }
  }

  lemma BeginReports(st: JF.Store, req: Request, now: int, io: JF.Io)
    requires st.disk.Some? && History.Valid(st.disk.value) && IsRequest(req)
    ensures var (st', r) := JF.BeginStep(st, req, now, io);
      && (r.Success? ==> st'.disk.Some? && r.value.job in st'.disk.value.jobs && r.value.job.id == req.id)
      && (r.Success? && r.value.created ==>
            && st'.disk.Some? && JF.Find(st'.disk.value.jobs, req.id) < |st'.disk.value.jobs|
            && st'.disk.value.jobs[JF.Find(st'.disk.value.jobs, req.id)].state == Requested)
  {
    hide History.Valid, Text, JF.BeginStep;
    BeginOutcome(st, st.disk.value, req, now, io);
    var (st', r) := JF.BeginStep(st, req, now, io);
    if r.Success? && r.value.created {
      assert st'.disk.value.jobs[|st.disk.value.jobs|] == r.value.job;
      UniqueFind(st'.disk.value);
    }
  }

  lemma AfterOne(ms: seq<Move>, m: Move)
    ensures After(FRESH, ms + [m]) == Step(After(FRESH, ms), m)
  {
    assert (ms + [m])[..|ms|] == ms;
  }

  ghost function LatchedWorld(w: World): (w': World)
    requires w.up && w.run.None?
    ensures w' == Step(w, LockBreaks) && w'.store == w.store.(ioFailed := true)
    ensures w' == w.(store := w'.store)
  {
    Step(w, LockBreaks)
  }

  lemma StepsToHost(w: World, c: Control, a: Answer)
    requires w.run == Some(c) && AtHost(c.pc)
    ensures Step(w, Host(a)) == w.(calls := w.calls + [Call(c.plan.id, c.pc)], run := AfterHost(c, a),
                                   up := AfterHost(c, a).Some?)
    ensures a == Died <==> AfterHost(c, a).None?
  {
  }
}
