/** Reading and replacing the journal file: what each operation does to the disk for every way
    the disk can behave, the class that performs them, and what they keep. */
module JournalFile {
  import opened Protocol
  import opened History

  /** What the disk does during one operation. A replace that reports an error may have happened. */
  datatype Io = Fine | Unreadable | FailsBefore | FailsAfter

  /** The file as the next reader finds it, and the latch set by the first failed write. */
  datatype Store = Store(disk: Option<Payload>, ioFailed: bool)

  datatype Reservation = Reservation(job: Job, created: bool)

  // ----------------------------------------------------------------------------------------
  // Specification of the operations

  ghost function ReadStep(st: Store, io: Io): Result<Payload> {
    if io == Unreadable then Failure(JournalUnsafe)
    else if st.disk == None then Failure(JournalCorrupt)
    else if |Text(st.disk.value)| > MAX_BYTES then Failure(JournalCorrupt)
    else if Valid(st.disk.value) then Success(st.disk.value)
    else Failure(JournalCorrupt)
  }

  ghost function SaveStep(st: Store, p: Payload, io: Io): (Store, Option<Code>) {
    if st.ioFailed then (st, Some(JournalIo))
    else if !Valid(p) then (st, Some(JournalCorrupt))
    else if |Text(p)| > MAX_BYTES then (st, Some(JournalCapacity))
    else if io == FailsBefore then (Store(st.disk, true), Some(JournalIo))
    else if io == FailsAfter then (Store(Some(p), true), Some(JournalIo))
    else (Store(Some(p), st.ioFailed), None)
  }

  /** The position of the first job with an identifier, or the number of jobs. */
  function Find(jobs: seq<Job>, id: string): (i: nat)
    ensures i <= |jobs|
    ensures i < |jobs| ==> jobs[i].id == id
    ensures forall k :: 0 <= k < i ==> jobs[k].id != id
  {
    if jobs == [] || jobs[0].id == id then 0 else 1 + Find(jobs[1..], id)
  }

  method Search(jobs: seq<Job>, id: string) returns (i: nat)
    ensures i == Find(jobs, id)
  {
    i := 0;
    while i < |jobs| && jobs[i].id != id
      invariant i <= |jobs|
      invariant forall k :: 0 <= k < i ==> jobs[k].id != id
    {
      i := i + 1;
    }
  }

  predicate Blocked(jobs: seq<Job>) {
    exists i :: 0 <= i < |jobs| && Active(jobs[i].state)
  }

  function NewJob(req: Request, now: int): Job {
    Job(req.id, req.target, req.current, Requested, None, None, [Event(0, Requested, now, None)])
  }

  ghost function BeginStep(st: Store, req: Request, now: int, io: Io): (Store, Result<Reservation>) {
    match ReadStep(st, io)
    case Failure(code) => (st, Failure(code))
    case Success(p) =>
      var i := Find(p.jobs, req.id);
      if i < |p.jobs| then
        if p.jobs[i].target != req.target || p.jobs[i].current != req.current
        then (st, Failure(RequestIdReused))
        else (st, Success(Reservation(p.jobs[i], false)))
      else if Blocked(p.jobs) then (st, Failure(RecoveryRequired))
      else if |p.jobs| >= MAX_JOBS then (st, Failure(JournalCapacity))
      else
        var (st', refused) := SaveStep(st, p.(jobs := p.jobs + [NewJob(req, now)]), io);
        (st', if refused.Some? then Failure(refused.value) else Success(Reservation(NewJob(req, now), true)))
  }

  /** The job with the digest that a transition carries. */
  function Digested(job: Job, s: State, backup: Option<string>, artifact: Option<string>): Job {
    job.(backup := if s == BackedUp then backup else job.backup,
         artifact := if s == Staged then artifact else job.artifact)
  }

  function Moved(job: Job, s: State, code: Option<Code>, backup: Option<string>, artifact: Option<string>,
                 now: int): Job {
    Digested(job, s, backup, artifact).(state := s, events := job.events + [Event(|job.events|, s, now, code)])
  }

  lemma MovedParts(job: Job, s: State, code: Option<Code>, backup: Option<string>, artifact: Option<string>, now: int)
    ensures var d := Digested(job, s, backup, artifact);
      Moved(job, s, code, backup, artifact, now)
      == d.(state := s, events := d.events + [Event(|d.events|, s, now, code)])
  {
  }

  /** A digest is required exactly by the one transition that records it. */
  function DigestRefusal(due: bool, digest: Option<string>): Option<Code> {
    if due then if digest.Some? && IsDigest(digest.value) then None else Some(BadRequest)
    else if digest.Some? then Some(InvalidTransition) else None
  }

  ghost function TransitionStep(st: Store, id: string, s: State, code: Option<Code>,
                                backup: Option<string>, artifact: Option<string>, now: int, io: Io)
    : (Store, Result<Job>)
  {
    match ReadStep(st, io)
    case Failure(c) => (st, Failure(c))
    case Success(p) =>
      var i := Find(p.jobs, id);
      if i == |p.jobs| || s !in Next(p.jobs[i].state) then (st, Failure(InvalidTransition))
      else MoveStep(st, p, i, s, code, backup, artifact, now, io)
  }

  lemma TransitionCases(st: Store, id: string, s: State, code: Option<Code>,
                        backup: Option<string>, artifact: Option<string>, now: int, io: Io)
    ensures var read, step := ReadStep(st, io), TransitionStep(st, id, s, code, backup, artifact, now, io);
      if read.Failure? then step == (st, Failure(read.code))
      else
        var jobs := read.value.jobs;
        var i := Find(jobs, id);
        step == if i == |jobs| || s !in Next(jobs[i].state) then (st, Failure(InvalidTransition))
                else MoveStep(st, read.value, i, s, code, backup, artifact, now, io)
  {
    hide Valid, Text, ReadStep, MoveStep, Find, Next;
  }

  ghost function MoveStep(st: Store, p: Payload, i: nat, s: State, code: Option<Code>,
                          backup: Option<string>, artifact: Option<string>, now: int, io: Io): (Store, Result<Job>)
    requires i < |p.jobs|
  {
    if DigestRefusal(s == BackedUp, backup).Some? then (st, Failure(DigestRefusal(s == BackedUp, backup).value))
    else if DigestRefusal(s == Staged, artifact).Some? then (st, Failure(DigestRefusal(s == Staged, artifact).value))
    else
      var job := Moved(p.jobs[i], s, code, backup, artifact, now);
      var (st', refused) := SaveStep(st, p.(jobs := p.jobs[i := job]), io);
      (st', if refused.Some? then Failure(refused.value) else Success(job))
  }

  function RecoveryTarget(s: State): State {
    if s in BEFORE_CUTOVER then Failed else ManualActionRequired
  }

  function RecoveryCode(s: State): Code {
    if s in BEFORE_CUTOVER then InterruptedBeforeCutover else RecoveryRequired
  }

  /** Only the last job of a valid journal can be unfinished, so recovery moves at most that one. */
  ghost function RecoverStep(st: Store, now: int, io: Io): (Store, Option<Code>) {
    if st.ioFailed then (st, Some(JournalIo))
    else match ReadStep(st, io)
      case Failure(code) => (st, Some(code))
      case Success(p) =>
        if p.jobs == [] || p.jobs[|p.jobs| - 1].state in TERMINAL then (st, None)
        else
          var last := p.jobs[|p.jobs| - 1];
          var (st', r) := TransitionStep(st, last.id, RecoveryTarget(last.state), Some(RecoveryCode(last.state)),
                                         None, None, now, io);
          (st', if r.Failure? then Some(r.code) else None)
  }

  lemma OnlyLastUnfinished(p: Payload)
    requires Valid(p)
    ensures forall k :: 0 <= k < |p.jobs| - 1 ==> p.jobs[k].state in TERMINAL
  {
  }

  // ----------------------------------------------------------------------------------------
  // The class

  /** What taking the process lock runs into. */
  datatype LockFile = Granted | HeldElsewhere | Broken | Untrusted

  class Journal {
    var disk: Option<Payload>
    var ioFailed: bool
    var localLock: bool
    var lockOwner: Option<nat>

    ghost function View(): Store
      reads this
    {
      Store(disk, ioFailed)
    }

    predicate Owned(thread: nat)
      reads this
    {
      localLock && lockOwner == Some(thread)
    }

    constructor (disk: Option<Payload>)
      ensures View() == Store(disk, false) && !localLock && lockOwner == None
    {
      this.disk, ioFailed, localLock, lockOwner := disk, false, false, None;
    }

    /** Enter the critical section without waiting. A refusal leaves whoever is inside alone. */
    method Acquire(thread: nat, lock: LockFile) returns (refused: Option<Code>)
      modifies this`ioFailed, this`localLock, this`lockOwner
      ensures old(localLock) ==>
        refused == Some(Busy) && localLock && lockOwner == old(lockOwner) && ioFailed == old(ioFailed)
      ensures !old(localLock) && old(ioFailed) ==>
        refused == Some(JournalIo) && !localLock && lockOwner == None && ioFailed
      ensures !old(localLock) && !old(ioFailed) ==>
        match lock
        case Granted => refused == None && Owned(thread) && !ioFailed
        case HeldElsewhere => refused == Some(Busy) && !localLock && lockOwner == None && !ioFailed
        case Broken => refused == Some(JournalIo) && !localLock && lockOwner == None && ioFailed
        case Untrusted => refused == Some(JournalUnsafe) && !localLock && lockOwner == None && !ioFailed
    {
      if localLock {
        return Some(Busy);
      }
      localLock := true;
      if ioFailed {
        refused := Some(JournalIo);
      } else {
        match lock
        case Granted =>
          lockOwner := Some(thread);
          return None;
        case HeldElsewhere =>
          refused := Some(Busy);
        case Broken =>
          ioFailed := true;
          refused := Some(JournalIo);
        case Untrusted =>
          refused := Some(JournalUnsafe);
      }
      lockOwner := None;
      localLock := false;
    }

    method Release()
      modifies this`localLock, this`lockOwner
      ensures !localLock && lockOwner == None
    {
      lockOwner := None;
      localLock := false;
    }

    method Read(io: Io) returns (r: Result<Payload>)
      ensures r == ReadStep(View(), io)
      ensures r.Success? ==> Valid(r.value)
    {
      if io == Unreadable {
        return Failure(JournalUnsafe);
      }
      match disk
      case None =>
        return Failure(JournalCorrupt);
      case Some(value) =>
        if |Text(value)| > MAX_BYTES {
          return Failure(JournalCorrupt);
        }
        var ok := Validate(value);
        return if ok then Success(value) else Failure(JournalCorrupt);
    }

    /** Only the thread inside the critical section can change the file. */
    method Save(thread: nat, value: Payload, io: Io) returns (refused: Option<Code>)
      modifies this`disk, this`ioFailed
      ensures !old(Owned(thread)) ==> refused == Some(Busy) && View() == old(View())
      ensures old(Owned(thread)) ==> (View(), refused) == SaveStep(old(View()), value, io)
    {
      if !localLock || lockOwner != Some(thread) {
        return Some(Busy);
      }
      if ioFailed {
        return Some(JournalIo);
      }
      var ok := Validate(value);
      if !ok {
        return Some(JournalCorrupt);
      }
      if |Text(value)| > MAX_BYTES {
        return Some(JournalCapacity);
      }
      match io
      case FailsBefore =>
        ioFailed := true;
        return Some(JournalIo);
      case FailsAfter =>
        disk := Some(value);
        ioFailed := true;
        return Some(JournalIo);
      case _ =>
        disk := Some(value);
        return None;
    }

    method Begin(thread: nat, req: Request, now: int, io: Io) returns (r: Result<Reservation>)
      requires Owned(thread)
      modifies this`disk, this`ioFailed
      ensures (View(), r) == BeginStep(old(View()), req, now, io)
    {
      hide Valid, Text;
      var read := Read(io);
      if read.Failure? {
        return Failure(read.code);
      }
      var value := read.value;
      for i := 0 to |value.jobs|
        invariant forall k :: 0 <= k < i ==> value.jobs[k].id != req.id
        invariant View() == old(View())
      {
        if value.jobs[i].id == req.id {
          assert Find(value.jobs, req.id) == i;
          if value.jobs[i].target != req.target || value.jobs[i].current != req.current {
            return Failure(RequestIdReused);
          }
          return Success(Reservation(value.jobs[i], false));
        }
      }
      for i := 0 to |value.jobs|
        invariant forall k :: 0 <= k < i ==> !Active(value.jobs[k].state)
        invariant View() == old(View())
      {
        if Active(value.jobs[i].state) {
          return Failure(RecoveryRequired);
        }
      }
      if |value.jobs| >= MAX_JOBS {
        return Failure(JournalCapacity);
      }
      var job := NewJob(req, now);
      var refused := Save(thread, value.(jobs := value.jobs + [job]), io);
      return if refused.Some? then Failure(refused.value) else Success(Reservation(job, true));
    }

    /** The two digests, each carried by the one transition that records it. */
    method WithDigests(old_: Job, s: State, backup: Option<string>, artifact: Option<string>) returns (r: Result<Job>)
      ensures DigestRefusal(s == BackedUp, backup).Some? ==> r == Failure(DigestRefusal(s == BackedUp, backup).value)
      ensures DigestRefusal(s == BackedUp, backup).None? && DigestRefusal(s == Staged, artifact).Some? ==>
        r == Failure(DigestRefusal(s == Staged, artifact).value)
      ensures DigestRefusal(s == BackedUp, backup).None? && DigestRefusal(s == Staged, artifact).None? ==>
        r == Success(Digested(old_, s, backup, artifact))
    {
      hide IsDigest;
      var job := old_;
      if s == BackedUp {
        if backup.None? || !IsDigest(backup.value) {
          return Failure(BadRequest);
        }
        job := job.(backup := backup);
      } else if backup.Some? {
        return Failure(InvalidTransition);
      }
      if s == Staged {
        if artifact.None? || !IsDigest(artifact.value) {
          return Failure(BadRequest);
        }
        job := job.(artifact := artifact);
      } else if artifact.Some? {
        return Failure(InvalidTransition);
      }
      return Success(job);
    }

    method Transition(thread: nat, id: string, s: State, code: Option<Code>,
                      backup: Option<string>, artifact: Option<string>, now: int, io: Io)
      returns (r: Result<Job>)
      requires Owned(thread)
      modifies this`disk, this`ioFailed
      ensures (View(), r) == TransitionStep(old(View()), id, s, code, backup, artifact, now, io)
    {
      hide Valid, Text, Next, ReadStep, TransitionStep, MoveStep, Find;
      TransitionCases(View(), id, s, code, backup, artifact, now, io);
      var read := Read(io);
      if read.Failure? {
        return Failure(read.code);
      }
      var value := read.value;
      var i := Search(value.jobs, id);
      if i == |value.jobs| || s !in Next(value.jobs[i].state) {
        return Failure(InvalidTransition);
      }
      r := Move(thread, value, i, s, code, backup, artifact, now, io);
    }

    /** Write the job with its new state, event and digest. */
    method Move(thread: nat, value: Payload, i: nat, s: State, code: Option<Code>,
                backup: Option<string>, artifact: Option<string>, now: int, io: Io)
      returns (r: Result<Job>)
      requires Owned(thread) && i < |value.jobs|
      modifies this`disk, this`ioFailed
      ensures (View(), r) == MoveStep(old(View()), value, i, s, code, backup, artifact, now, io)
    {
      hide SaveStep, DigestRefusal, Digested, Moved, IsDigest;
      var next := WithDigests(value.jobs[i], s, backup, artifact);
      if next.Failure? {
        return Failure(next.code);
      }
      MovedParts(value.jobs[i], s, code, backup, artifact, now);
      var job := next.value;
      job := job.(state := s, events := job.events + [Event(|job.events|, s, now, code)]);
      var refused := Save(thread, value.(jobs := value.jobs[i := job]), io);
      return if refused.Some? then Failure(refused.value) else Success(job);
    }

    /** Reconcile after an interruption. The loop walks every job of the file as first read. Without
        the process lock nothing is read or written. */
    method RecoverInterrupted(thread: nat, lock: LockFile, now: int, io: Io) returns (refused: Option<Code>)
      modifies this
      ensures old(localLock) ==>
        refused == Some(Busy) && View() == old(View()) && localLock && lockOwner == old(lockOwner)
      ensures !old(localLock) ==> !localLock && lockOwner == None
      ensures !old(localLock) && (old(ioFailed) || lock == Granted) ==>
        (View(), refused) == RecoverStep(old(View()), now, io)
      ensures !old(localLock) && !old(ioFailed) && lock != Granted ==>
        && View() == old(View()).(ioFailed := lock == Broken)
        && refused == Some(match lock case Broken => JournalIo case Untrusted => JournalUnsafe case _ => Busy)
    {
      hide Valid, Text, ReadStep, SaveStep, TransitionStep;
      refused := Acquire(thread, lock);
      if refused.Some? {
        return;
      }
      var read := Read(io);
      if read.Failure? {
        Release();
        return Some(read.code);
      }
      var jobs := read.value.jobs;
      OnlyLastUnfinished(read.value);
      for i := 0 to |jobs|
        invariant Owned(thread)
        invariant i < |jobs| ==> View() == old(View())
        invariant i == |jobs| ==> (View(), None) == RecoverStep(old(View()), now, io)
      {
        var job := jobs[i];
        if job.state !in TERMINAL {
          var before := job.state in BEFORE_CUTOVER;
          var r := Transition(thread, job.id, if before then Failed else ManualActionRequired,
                              Some(if before then InterruptedBeforeCutover else RecoveryRequired),
                              None, None, now, io);
          if r.Failure? {
            Release();
            return Some(r.code);
          }
        }
      }
      Release();
      return None;
    }
  }
}
