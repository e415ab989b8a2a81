/** One update as a machine: what the runner does next, how it reacts to each answer of the host
    and of the journal, and the whole service around it with crashes and restarts. The machine is
    deterministic; all the freedom of the host, the disk, the clock, the clients and the power
    supply is in the sequence of moves. */
module Transaction {
  import opened Protocol
  import opened History
  import opened JournalFile

  datatype Plan = Plan(id: string, target: Version, current: Version)

  /** Receipts of the two host actions that return one. */
  datatype Candidate = Candidate(id: string, version: Version, archive: string)
  datatype Backup = Backup(id: string, version: Version, manifest: string)

  datatype Value = Nothing | AVersion(version: Version) | ACandidate(candidate: Candidate) | ABackup(backup: Backup)

  /** Every host action may return anything, raise, or take the process down with it. */
  datatype Answer = Returned(value: Value) | Raised | Died

  /** The points of the program at which it waits for the host or the journal. */
  datatype Pc =
    | FirstVersion | FirstPreflight | SaveValidated | SaveStaging | Prepare | SaveStaged
    | SecondVersion | SecondPreflight | SaveStopRequested | Stop | SaveStopped
    | SaveBackupStarted | TakeBackup | SaveBackedUp | SaveStartRequested | Start | SaveStarted
    | Verify | SaveVerified | SaveComplete
    | ReadState | SaveFailed | SaveRollingBack | Restore | VerifyOriginal | SaveRestored | SaveManual

  datatype Control = Control(plan: Plan, pc: Pc, candidate: Option<Candidate>, backup: Option<Backup>,
                             mayHaveStarted: bool, failure: Option<Code>)

  predicate AtHost(pc: Pc) {
    pc in {FirstVersion, FirstPreflight, Prepare, SecondVersion, SecondPreflight, Stop, TakeBackup,
           Start, Verify, Restore, VerifyOriginal}
  }

  predicate GoodCandidate(plan: Plan, v: Value) {
    v.ACandidate? && v.candidate.id == plan.id && v.candidate.version == plan.target && IsDigest(v.candidate.archive)
  }

  predicate GoodBackup(plan: Plan, v: Value) {
    v.ABackup? && v.backup.id == plan.id && v.backup.version == plan.current && IsDigest(v.backup.manifest)
  }

  function Fail(c: Control, code: Code): Control {
    c.(pc := ReadState, failure := Some(code))
  }

  function Initial(plan: Plan): Control {
    var c := Control(plan, FirstVersion, None, None, false, None);
    if Newer(plan.target, plan.current) then c else Fail(c, NotAnUpgrade)
  }

  /** The code under which a raising host action is reported. */
  function ActionCode(pc: Pc): Code {
    match pc
    case Prepare => SourceVerificationFailed
    case Stop => StopFailed
    case TakeBackup => BackupFailed
    case Start => StartFailed
    case Verify => HealthFailed
    case Restore => RestoreFailed
    case VerifyOriginal => RestoreFailed
    case _ => PreflightFailed
  }

  /** Where a host answer leads; nowhere when the process dies. */
  function AfterHost(c: Control, a: Answer): Option<Control>
    requires AtHost(c.pc)
  {
    match a
    case Died => None
    case Raised =>
      Some(if c.pc in {Restore, VerifyOriginal} then c.(pc := SaveManual) else Fail(c, ActionCode(c.pc)))
    case Returned(v) =>
      Some(match c.pc
        case FirstVersion =>
          if v == AVersion(c.plan.current) then c.(pc := FirstPreflight) else Fail(c, CurrentVersionChanged)
        case FirstPreflight => c.(pc := SaveValidated)
        case Prepare =>
          if GoodCandidate(c.plan, v) then c.(pc := SaveStaged, candidate := Some(v.candidate))
          else Fail(c, SourceVerificationFailed)
        case SecondVersion =>
          if v == AVersion(c.plan.current) then c.(pc := SecondPreflight) else Fail(c, CurrentVersionChanged)
        case SecondPreflight => c.(pc := SaveStopRequested)
        case Stop => c.(pc := SaveStopped)
        case TakeBackup =>
          if GoodBackup(c.plan, v) then c.(pc := SaveBackedUp, backup := Some(v.backup))
          else Fail(c, BackupFailed)
        case Start => c.(pc := SaveStarted)
        case Verify => c.(pc := SaveVerified)
        case Restore => c.(pc := VerifyOriginal)
        case _ => c.(pc := SaveRestored))
  }

  /** The host action invoked at a point, with its arguments. */
  datatype Action =
    | CurrentVersion
    | Preflight(plan: Plan)
    | PrepareCandidate(plan: Plan)
    | StopOriginal(plan: Plan)
    | BackupOriginal(plan: Plan)
    | StartCandidate(plan: Plan, candidate: Option<Candidate>, backup: Option<Backup>)
    | VerifyCandidate(plan: Plan)
    | RestoreOriginal(plan: Plan, backup: Option<Backup>, mayHaveStarted: bool)
    | CheckOriginal(plan: Plan)

  function ActionAt(c: Control): Action
    requires AtHost(c.pc)
  {
    match c.pc
    case Prepare => PrepareCandidate(c.plan)
    case Stop => StopOriginal(c.plan)
    case TakeBackup => BackupOriginal(c.plan)
    case Start => StartCandidate(c.plan, c.candidate, c.backup)
    case Verify => VerifyCandidate(c.plan)
    case Restore => RestoreOriginal(c.plan, c.backup, c.mayHaveStarted)
    case VerifyOriginal => CheckOriginal(c.plan)
    case FirstPreflight => Preflight(c.plan)
    case SecondPreflight => Preflight(c.plan)
    case _ => CurrentVersion
  }

  /** What a saving point writes. */
  datatype Write = Write(state: State, code: Option<Code>, backup: Option<string>, artifact: Option<string>)

  function WriteAt(c: Control): Write {
    match c.pc
    case SaveValidated => Write(Validated, None, None, None)
    case SaveStaging => Write(Staging, None, None, None)
    case SaveStaged => Write(Staged, None, None, if c.candidate.Some? then Some(c.candidate.value.archive) else None)
    case SaveStopRequested => Write(StopRequested, None, None, None)
    case SaveStopped => Write(Stopped, None, None, None)
    case SaveBackupStarted => Write(BackupStarted, None, None, None)
    case SaveBackedUp => Write(BackedUp, None, if c.backup.Some? then Some(c.backup.value.manifest) else None, None)
    case SaveStartRequested => Write(StartRequested, None, None, None)
    case SaveStarted => Write(Started, None, None, None)
    case SaveVerified => Write(Verified, None, None, None)
    case SaveComplete => Write(Complete, None, None, None)
    case SaveFailed => Write(Failed, c.failure, None, None)
    case SaveRollingBack => Write(RollingBack, c.failure, None, None)
    case SaveRestored => Write(Restored, c.failure, None, None)
    case _ => Write(ManualActionRequired, Some(RestoreFailed), None, None)
  }

  /** Where a successful write leads; nowhere when the run is over. */
  function AfterSave(c: Control): Option<Control> {
    match c.pc
    case SaveValidated => Some(c.(pc := SaveStaging))
    case SaveStaging => Some(c.(pc := Prepare))
    case SaveStaged => Some(c.(pc := SecondVersion))
    case SaveStopRequested => Some(c.(pc := Stop))
    case SaveStopped => Some(c.(pc := SaveBackupStarted))
    case SaveBackupStarted => Some(c.(pc := TakeBackup))
    case SaveBackedUp => Some(c.(pc := SaveStartRequested))
    case SaveStartRequested => Some(c.(pc := Start, mayHaveStarted := true))
    case SaveStarted => Some(c.(pc := Verify))
    case SaveVerified => Some(c.(pc := SaveComplete))
    case SaveRollingBack => Some(c.(pc := Restore))
    case _ => None
  }

  // ----------------------------------------------------------------------------------------
  // The service around the runner

  /** A call of a host action, tagged with the request it was made for. */
  datatype Call = Call(id: string, pc: Pc)

  /** `up` is whether the process serves requests; `run` is the transaction holding the lock. */
  datatype World = World(store: Store, up: bool, run: Option<Control>, calls: seq<Call>, acks: seq<string>)

  datatype Move =
    | Submit(req: Request, wantsAck: bool, now: int, io: Io)
    | Host(answer: Answer)
    | Disk(now: int, io: Io)
    | LockBreaks
    | Kill
    | Restart(now: int, io: Io)

  const FRESH := World(Store(Some(EMPTY), false), true, None, [], [])

  function PlanOf(req: Request): Plan {
    Plan(req.id, req.target, req.current)
  }

  ghost function SubmitStep(w: World, req: Request, wantsAck: bool, now: int, io: Io): World
  {
    var (store, r) := BeginStep(w.store, req, now, io);
    World(store, true,
          if r.Success? && r.value.created then Some(Initial(PlanOf(req))) else None,
          w.calls,
          if r.Success? && wantsAck then w.acks + [req.id] else w.acks)
  }

  ghost function HostStep(w: World, c: Control, a: Answer): World
    requires AtHost(c.pc)
  {
    var next := AfterHost(c, a);
    w.(calls := w.calls + [Call(c.plan.id, c.pc)], run := next, up := next.Some?)
  }

  ghost function DiskStep(w: World, c: Control, now: int, io: Io): World
  {
    if c.pc == ReadState then
      match ReadStep(w.store, io)
      case Failure(_) => w.(run := None)
      case Success(p) =>
        var i := Find(p.jobs, c.plan.id);
        w.(run := if i == |p.jobs| then None
                  else Some(c.(pc := if p.jobs[i].state in BEFORE_CUTOVER then SaveFailed else SaveRollingBack)))
    else
      var write := WriteAt(c);
      var (store, r) :=
        TransitionStep(w.store, c.plan.id, write.state, write.code, write.backup, write.artifact, now, io);
      w.(store := store, run := if r.Success? then AfterSave(c) else None)
  }

  ghost function RestartStep(w: World, now: int, io: Io): World
  {
    var (store, refused) := RecoverStep(Store(w.store.disk, false), now, io);
    w.(store := store, up := refused.None?)
  }

  /** A move that is not possible in a world leaves it alone. */
  ghost function Step(w: World, m: Move): World {
    match m
    case Submit(req, wantsAck, now, io) =>
      if w.up && w.run.None? && !w.store.ioFailed && IsRequest(req) then SubmitStep(w, req, wantsAck, now, io) else w
    case Host(a) =>
      if w.run.Some? && AtHost(w.run.value.pc) then HostStep(w, w.run.value, a) else w
    case Disk(now, io) =>
      if w.run.Some? && !AtHost(w.run.value.pc) then DiskStep(w, w.run.value, now, io) else w
    case LockBreaks =>
      if w.up && w.run.None? then w.(store := w.store.(ioFailed := true)) else w
    case Kill => w.(up := false, run := None)
    case Restart(now, io) =>
      if w.up then w else RestartStep(w, now, io)
  }

  /** The world after a sequence of moves. */
  ghost function After(w: World, ms: seq<Move>): World {
    if ms == [] then w else Step(After(w, ms[..|ms| - 1]), ms[|ms| - 1])
  }
}
