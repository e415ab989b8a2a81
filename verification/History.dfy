/** The durable host journal: its transition relation, the whole-history validator, the text
    size of what it stores, and the class that reads, validates and atomically replaces it. */
module History {
  import opened Protocol

  const MAX_BYTES := 512 * 1024
  const MAX_JOBS := 128
  const MAX_EVENTS := 32
  const LAST_TIME := 253_402_300_799

  datatype State =
    | Requested | Validated | Staging | Staged | StopRequested | Stopped
    | BackupStarted | BackedUp | StartRequested | Started | Verified
    | Complete | RollingBack | Restored | Failed | ManualActionRequired

  const ALL_STATES: set<State> :=
    {Requested, Validated, Staging, Staged, StopRequested, Stopped,
     BackupStarted, BackedUp, StartRequested, Started, Verified,
     Complete, RollingBack, Restored, Failed, ManualActionRequired}
  const TERMINAL: set<State> := {Complete, Restored, Failed, ManualActionRequired}
  const BEFORE_CUTOVER: set<State> := {Requested, Validated, Staging, Staged}
  const ORDER: seq<State> :=
    [Requested, Validated, Staging, Staged, StopRequested, Stopped,
     BackupStarted, BackedUp, StartRequested, Started, Verified, Complete]

  /** Which states may follow a state. */
  function Next(s: State): set<State> {
    match s
    case Requested => {Validated, Failed}
    case Validated => {Staging, Failed}
    case Staging => {Staged, Failed}
    case Staged => {StopRequested, Failed}
    case StopRequested => {Stopped, RollingBack, ManualActionRequired}
    case Stopped => {BackupStarted, RollingBack, ManualActionRequired}
    case BackupStarted => {BackedUp, RollingBack, ManualActionRequired}
    case BackedUp => {StartRequested, RollingBack, ManualActionRequired}
    case StartRequested => {Started, RollingBack, ManualActionRequired}
    case Started => {Verified, RollingBack, ManualActionRequired}
    case Verified => {Complete, RollingBack, ManualActionRequired}
    case RollingBack => {Restored, ManualActionRequired}
    case Complete => {}
    case Restored => {}
    case Failed => {}
    case ManualActionRequired => {}
  }

  function Lookup(table: map<State, set<State>>, s: State): set<State> {
    if s in table then table[s] else {}
  }

  /** The place of a state in the straight order; 12 for the states that are not in it. */
  function Place(s: State): nat {
    match s
    case Requested => 0 case Validated => 1 case Staging => 2 case Staged => 3
    case StopRequested => 4 case Stopped => 5 case BackupStarted => 6 case BackedUp => 7
    case StartRequested => 8 case Started => 9 case Verified => 10 case Complete => 11
    case _ => 12
  }

  lemma PlaceIsIndex(i: nat, s: State)
    requires i < |ORDER|
    ensures Place(s) == i <==> s == ORDER[i]
  {
  }

  method ChainOrder() returns (table: map<State, set<State>>)
    ensures forall s :: Lookup(table, s) == if Place(s) < 11 then {ORDER[Place(s) + 1]} else {}
  {
    table := map[];
    for i := 0 to |ORDER| - 1
      invariant forall s :: Lookup(table, s) == if Place(s) < i then {ORDER[Place(s) + 1]} else {}
    {
      forall s ensures Place(s) == i <==> s == ORDER[i] { PlaceIsIndex(i, s); }
      table := table[ORDER[i] := {ORDER[i + 1]}];
    }
  }

  /** The table is assembled by loops over the state lists; looking a state up in it, with the
      empty set for a missing one, gives exactly `Next`. */
  method BuildNext() returns (table: map<State, set<State>>)
    ensures forall s :: Lookup(table, s) == Next(s)
  {
    hide Next;
    table := ChainOrder();
    table := AddToAll(table, BEFORE_CUTOVER, {Failed});
    table := AddToAll(table, ALL_STATES - TERMINAL - BEFORE_CUTOVER, {RollingBack, ManualActionRequired});
    forall s | s != RollingBack ensures Lookup(table, s) == Next(s) { NextInParts(s); }
    RollingBackNext();
    table := table[RollingBack := {Restored, ManualActionRequired}];
  }

  lemma RollingBackNext()
    ensures Next(RollingBack) == {Restored, ManualActionRequired}
  {
  }

  /** What the three loops contribute to a state, apart from the final override. */
  lemma NextInParts(s: State)
    requires s != RollingBack
    ensures var chain := if Place(s) < 11 then {ORDER[Place(s) + 1]} else {};
      var early := if s in BEFORE_CUTOVER then chain + {Failed} else chain;
      Next(s) ==
        if s in ALL_STATES - TERMINAL - BEFORE_CUTOVER then early + {RollingBack, ManualActionRequired} else early
  {
    assert s in ALL_STATES;
    match s
    case _ => assert ORDER[11] == Complete;
  }

  /** Adds the same targets to every listed state, creating missing entries. */
  method AddToAll(table: map<State, set<State>>, keys: set<State>, targets: set<State>)
    returns (wider: map<State, set<State>>)
    ensures forall s :: Lookup(wider, s) == (if s in keys then Lookup(table, s) + targets else Lookup(table, s))
  {
    wider := table;
    var rest := keys;
    while rest != {}
      invariant rest <= keys
      invariant forall s ::
        Lookup(wider, s) == (if s in keys - rest then Lookup(table, s) + targets else Lookup(table, s))
      decreases rest
    {
      var s :| s in rest;
      wider := wider[s := Lookup(wider, s) + targets];
      rest := rest - {s};
    }
  }

  // ----------------------------------------------------------------------------------------
  // What state.json holds, and which contents are trusted

  datatype Event = Event(sequence: int, state: State, time: int, code: Option<Code>)

  datatype Job = Job(id: string, target: Version, current: Version, state: State,
                     backup: Option<string>, artifact: Option<string>, events: seq<Event>)

  datatype Payload = Payload(schema: int, jobs: seq<Job>)

  const EMPTY := Payload(1, [])

  /** Still running, or stopped in a way that needs an operator. */
  predicate Active(s: State) {
    s !in TERMINAL || s == ManualActionRequired
  }

  predicate ClockOk(time: int) {
    0 <= time <= LAST_TIME
  }

  predicate OptionalDigest(d: Option<string>) {
    d.Some? ==> IsDigest(d.value)
  }

  predicate Mentions(events: seq<Event>, s: State) {
    exists i :: 0 <= i < |events| && events[i].state == s
  }

  /** A numbered walk along `Next` that starts in Requested. */
  predicate IsHistory(events: seq<Event>) {
    && |events| >= 1
    && events[0].state == Requested
    && (forall i :: 0 <= i < |events| ==> events[i].sequence == i && ClockOk(events[i].time))
    && (forall i :: 1 <= i < |events| ==> events[i].state in Next(events[i - 1].state))
  }

  predicate JobOk(j: Job) {
    && IsRequestId(j.id) && IsVersion(j.target) && IsVersion(j.current)
    && OptionalDigest(j.backup) && OptionalDigest(j.artifact)
    && |j.events| <= MAX_EVENTS
    && IsHistory(j.events)
    && j.events[|j.events| - 1].state == j.state
    && (Mentions(j.events, BackedUp) <==> j.backup.Some?)
    && (Mentions(j.events, Staged) <==> j.artifact.Some?)
  }

  predicate JobsOk(jobs: seq<Job>) {
    forall i :: 0 <= i < |jobs| ==> JobOk(jobs[i])
  }

  predicate Distinct(jobs: seq<Job>) {
    forall i, k :: 0 <= i < k < |jobs| ==> jobs[i].id != jobs[k].id
  }

  /** The whole-history invariant of the journal. */
  predicate Valid(p: Payload) {
    && p.schema == 1
    && |p.jobs| <= MAX_JOBS
    && JobsOk(p.jobs)
    && Distinct(p.jobs)
    && (forall i :: 0 <= i < |p.jobs| - 1 ==> !Active(p.jobs[i].state))
  }

  method ValidateJob(j: Job) returns (ok: bool)
    ensures ok <==> JobOk(j)
  {
    hide Next, IsRequestId, IsVersion, OptionalDigest;
    if !IsRequestId(j.id) || !IsVersion(j.target) || !IsVersion(j.current)
       || !OptionalDigest(j.backup) || !OptionalDigest(j.artifact) {
      return false;
    }
    if !(1 <= |j.events| <= MAX_EVENTS) {
      return false;
    }
    var previous: Option<State> := None;
    var backedUp, staged := false, false;
    for i := 0 to |j.events|
      invariant i == 0 ==> previous == None
      invariant i > 0 ==> previous == Some(j.events[i - 1].state) && IsHistory(j.events[..i])
      invariant backedUp <==> Mentions(j.events[..i], BackedUp)
      invariant staged <==> Mentions(j.events[..i], Staged)
    {
      var event := j.events[i];
      assert j.events[..i + 1] == j.events[..i] + [event];
      var follows := match previous
        case None => event.state == Requested
        case Some(before) => event.state in Next(before);
      if event.sequence != i || !ClockOk(event.time) || !follows {
        assert !IsHistory(j.events) by {
          assert i > 0 ==> event.state in Next(j.events[i - 1].state) ==> follows;
        }
        return false;
      }
      assert Mentions(j.events[..i + 1], BackedUp) <==>
        Mentions(j.events[..i], BackedUp) || event.state == BackedUp by {
        assert j.events[..i + 1][i] == event;
        assert forall k :: 0 <= k < i ==> j.events[..i + 1][k] == j.events[..i][k];
      }
      assert Mentions(j.events[..i + 1], Staged) <==> Mentions(j.events[..i], Staged) || event.state == Staged by {
        assert j.events[..i + 1][i] == event;
        assert forall k :: 0 <= k < i ==> j.events[..i + 1][k] == j.events[..i][k];
      }
      backedUp := backedUp || event.state == BackedUp;
      staged := staged || event.state == Staged;
      previous := Some(event.state);
    }
    assert j.events[..|j.events|] == j.events;
    return previous == Some(j.state) && backedUp == j.backup.Some? && staged == j.artifact.Some?;
  }

  /** The validator counts active jobs as it goes and rejects a job that follows one. */
  method Validate(p: Payload) returns (ok: bool)
    ensures ok <==> Valid(p)
  {
    if p.schema != 1 || |p.jobs| > MAX_JOBS {
      return false;
    }
    var ids: set<string>, active := {}, 0;
    for position := 0 to |p.jobs|
      invariant ids == set i | 0 <= i < position :: p.jobs[i].id
      invariant JobsOk(p.jobs[..position])
      invariant Distinct(p.jobs[..position])
      invariant forall i :: 0 <= i < position && i < |p.jobs| - 1 ==> !Active(p.jobs[i].state)
      invariant active == if position == |p.jobs| > 0 && Active(p.jobs[position - 1].state) then 1 else 0
    {
      var job := p.jobs[position];
      assert p.jobs[..position + 1] == p.jobs[..position] + [job];
      var jobOk := ValidateJob(job);
      if !jobOk || job.id in ids {
        return false;
      }
      ids := ids + {job.id};
      if Active(job.state) {
        active := active + 1;
      }
      if active != 0 && position != |p.jobs| - 1 {
        return false;
      }
    }
    assert p.jobs[..|p.jobs|] == p.jobs;
    return active <= 1;
  }

  // ----------------------------------------------------------------------------------------
  // Histories are short

  /** Steps that can still follow a state, at most. */
  function Rank(s: State): nat {
    match s
    case Requested => 12 case Validated => 11 case Staging => 10 case Staged => 9
    case StopRequested => 8 case Stopped => 7 case BackupStarted => 6 case BackedUp => 5
    case StartRequested => 4 case Started => 3 case Verified => 2 case RollingBack => 1
    case _ => 0
  }

  lemma {:induction false} RankFalls(events: seq<Event>, i: nat, k: nat)
    requires IsHistory(events) && i <= k < |events|
    ensures Rank(events[k].state) + (k - i) <= Rank(events[i].state)
    decreases k - i
  {
    if i < k {
      RankFalls(events, i, k - 1);
      assert events[k].state in Next(events[k - 1].state);
    }
  }

  /** Every history has at most 13 events and enters no state twice, so the bound of 32 on the
      number of events never rejects a history. */
  lemma HistoryIsShort(events: seq<Event>)
    requires IsHistory(events)
    ensures |events| <= 13
    ensures forall i, k :: 0 <= i < k < |events| ==> events[i].state != events[k].state
  {
    RankFalls(events, 0, |events| - 1);
    forall i, k | 0 <= i < k < |events| ensures events[i].state != events[k].state {
      RankFalls(events, i, k);
    }
  }

  /** Past the point where the stop was requested, a job can no longer be reported as failed
      before cutover; and a failed job never requested the stop. */
  lemma {:induction false} NoFailureAfterStop(events: seq<Event>, i: nat, k: nat)
    requires IsHistory(events) && i <= k < |events| && Rank(events[i].state) <= 8 && events[i].state != Failed
    ensures events[k].state != Failed && events[k].state !in BEFORE_CUTOVER
    decreases k - i
  {
    if i < k {
      NoFailureAfterStop(events, i, k - 1);
      RankFalls(events, i, k - 1);
      assert events[k].state in Next(events[k - 1].state);
    }
  }

  // ----------------------------------------------------------------------------------------
  // The journal as text

  function StateText(s: State): (text: string)
    ensures |text| <= 22
  {
    match s
    case Requested => "REQUESTED" case Validated => "VALIDATED" case Staging => "STAGING" case Staged => "STAGED"
    case StopRequested => "STOP_REQUESTED" case Stopped => "STOPPED" case BackupStarted => "BACKUP_STARTED"
    case BackedUp => "BACKED_UP" case StartRequested => "START_REQUESTED" case Started => "STARTED"
    case Verified => "VERIFIED" case Complete => "COMPLETE" case RollingBack => "ROLLING_BACK"
    case Restored => "RESTORED" case Failed => "FAILED" case ManualActionRequired => "MANUAL_ACTION_REQUIRED"
  }

  function Quoted(s: string): string { "\"" + s + "\"" }

  function NullOr(s: Option<string>): string {
    if s.Some? then Quoted(s.value) else "null"
  }

  function EventText(e: Event): string {
    "{\"code\":" + (if e.code.Some? then Quoted(CodeText(e.code.value)) else "null")
    + ",\"sequence\":" + Number(e.sequence)
    + ",\"state\":" + Quoted(StateText(e.state))
    + ",\"time\":" + Number(e.time) + "}"
  }

  function EventsText(events: seq<Event>): string {
    if events == [] then ""
    else if |events| == 1 then EventText(events[0])
    else EventsText(events[..|events| - 1]) + "," + EventText(events[|events| - 1])
  }

  function JobText(j: Job): string {
    "{\"artifact_sha256\":" + NullOr(j.artifact)
    + ",\"backup_sha256\":" + NullOr(j.backup)
    + ",\"events\":[" + EventsText(j.events)
    + "],\"expected_current_version\":" + Quoted(VersionText(j.current))
    + ",\"request_id\":" + Quoted(j.id)
    + ",\"state\":" + Quoted(StateText(j.state))
    + ",\"target_version\":" + Quoted(VersionText(j.target)) + "}"
  }

  function JobsText(jobs: seq<Job>): string {
    if jobs == [] then ""
    else if |jobs| == 1 then JobText(jobs[0])
    else JobsText(jobs[..|jobs| - 1]) + "," + JobText(jobs[|jobs| - 1])
  }

  /** The JSON text with sorted keys and no spaces. */
  function Text(p: Payload): string {
    "{\"jobs\":[" + JobsText(p.jobs) + "],\"schema\":" + Number(p.schema) + "}"
  }

  lemma EventTextLength(e: Event)
    requires 0 <= e.sequence < 100 && ClockOk(e.time)
    ensures |EventText(e)| <= 104
  {
    assert Pow10(2) == 100;
    assert Pow10(12) == 1_000_000_000_000 by { assert Pow10(6) == 1_000_000; }
    DecimalLength(e.sequence, 2);
    DecimalLength(e.time, 12);
  }

  lemma {:induction false} EventsTextLength(events: seq<Event>)
    requires |events| <= 100
    requires forall i :: 0 <= i < |events| ==> 0 <= events[i].sequence < 100 && ClockOk(events[i].time)
    ensures |EventsText(events)| <= 105 * |events|
  {
    if events != [] {
      EventTextLength(events[|events| - 1]);
      EventsTextLength(events[..|events| - 1]);
    }
  }

  lemma VersionTextLength(v: Version)
    requires IsVersion(v)
    ensures |VersionText(v)| <= 14
  {
    assert Pow10(4) == 10000;
    DecimalLength(v.major, 4);
    DecimalLength(v.minor, 4);
    DecimalLength(v.patch, 4);
  }

  lemma JobTextLength(j: Job)
    requires JobOk(j)
    ensures |JobText(j)| <= 1800
  {
    HistoryIsShort(j.events);
    EventsTextLength(j.events);
    VersionTextLength(j.current);
    VersionTextLength(j.target);
  }

  lemma {:induction false} JobsTextLength(jobs: seq<Job>)
    requires forall i :: 0 <= i < |jobs| ==> JobOk(jobs[i])
    ensures |JobsText(jobs)| <= 1801 * |jobs|
  {
    if jobs != [] {
      JobTextLength(jobs[|jobs| - 1]);
      JobsTextLength(jobs[..|jobs| - 1]);
    }
  }

  /** No valid journal reaches the size limit: the size check can neither refuse a write in the
      middle of a transaction nor make a written journal unreadable. */
  lemma ValidFits(p: Payload)
    requires Valid(p)
    ensures |Text(p)| < MAX_BYTES
  {
    JobsTextLength(p.jobs);
    assert Number(1) == "1";
  }
}
