/** The accept loop and its workers, interleaved in any way: slots, the journal lock, replies. */
module Listener {
  import opened Protocol

  type Client = int

  /** Where the worker of a connection is, and whether the client has been acknowledged. */
  datatype Stage = Started | Locked | Reserved | Acknowledged | Unlocked(acknowledged: bool) | Answered

  /** `free` is the semaphore; `running` the submitted handlers; `holder` the owner of the journal
      lock; `writes` who changed the journal; `replies` how often each accepted client was sent
      something; `turnedAway` the clients whose connection was closed at once. */
  datatype Pool = Pool(workers: nat, free: int, running: map<Client, Stage>, holder: Option<Client>,
                       writes: seq<Client>, replies: map<Client, nat>, turnedAway: set<Client>, accepting: bool)

  datatype Event =
    | Arrive(client: Client, poolTakes: bool)
    | TakeLock(client: Client)
    | Save(client: Client)
    | Acknowledge(client: Client)
    | Unlock(client: Client)
    | Answer(client: Client)
    | Finish(client: Client)
    | Shutdown

  function Fresh(workers: nat): Pool {
    Pool(workers, workers, map[], None, [], map[], {}, true)
  }

  /** A new connection takes a slot without waiting. A pool that cannot take the handler gives the
      slot back and ends the loop. */
  function Arrived(p: Pool, c: Client, poolTakes: bool): Pool {
    if p.free <= 0 then p.(turnedAway := p.turnedAway + {c})
    else if !poolTakes then p.(turnedAway := p.turnedAway + {c}, accepting := false)
    else p.(free := p.free - 1, running := p.running[c := Started], replies := p.replies[c := 0])
  }

  function Sent(p: Pool, c: Client, stage: Stage): Pool
    requires c in p.replies
  {
    p.(running := p.running[c := stage], replies := p.replies[c := p.replies[c] + 1])
  }

  /** An event that is not possible leaves the pool alone. Anyone may try to write; the journal
      refuses whoever does not own the lock. */
  function Step(p: Pool, e: Event): Pool {
    match e
    case Arrive(c, poolTakes) =>
      if p.accepting && c !in p.replies && c !in p.turnedAway then Arrived(p, c, poolTakes) else p
    case TakeLock(c) =>
      if c !in p.running || p.running[c] != Started then p
      else if p.holder.None? then p.(holder := Some(c), running := p.running[c := Locked])
      else p.(running := p.running[c := Unlocked(false)])
    case Save(c) =>
      if c !in p.running || p.holder != Some(c) then p
      else p.(writes := p.writes + [c],
              running := p.running[c := if p.running[c] == Locked then Reserved else p.running[c]])
    case Acknowledge(c) =>
      if c in p.running && p.running[c] == Reserved && c in p.replies then Sent(p, c, Acknowledged) else p
    case Unlock(c) =>
      if c in p.running && p.running[c] in {Locked, Reserved, Acknowledged}
      then p.(holder := None, running := p.running[c := Unlocked(p.running[c] == Acknowledged)]) else p
    case Answer(c) =>
      if c !in p.running || c !in p.replies then p
      else if p.running[c] in {Started, Unlocked(false)} then Sent(p, c, Answered)
      else if p.running[c] == Unlocked(true) then p.(running := p.running[c := Answered])
      else p
    case Finish(c) =>
      if c in p.running && p.running[c] == Answered
      then p.(free := p.free + 1, running := p.running - {c}) else p
    case Shutdown => p.(accepting := false)
  }

  function After(workers: nat, events: seq<Event>): Pool {
    if events == [] then Fresh(workers) else Step(After(workers, events[..|events| - 1]), events[|events| - 1])
  }

  // ----------------------------------------------------------------------------------------

  predicate Inside(p: Pool, c: Client) {
    c in p.running && p.running[c] in {Locked, Reserved, Acknowledged}
  }

  function RepliesDue(s: Stage): nat {
    if s in {Acknowledged, Unlocked(true), Answered} then 1 else 0
  }

  ghost predicate Slots(p: Pool) {
    p.free + |p.running| == p.workers && p.free >= 0
  }

  ghost predicate Replies(p: Pool) {
    && (forall c :: c in p.running ==> c in p.replies && p.replies[c] == RepliesDue(p.running[c]))
    && (forall c :: c in p.replies && c !in p.running ==> p.replies[c] == 1)
    && (forall c :: c in p.turnedAway ==> c !in p.replies)
  }

  ghost predicate Locking(p: Pool) {
    && (forall c :: Inside(p, c) <==> p.holder == Some(c))
    && (forall c :: c in p.running && p.running[c] in {Reserved, Acknowledged, Unlocked(true)} ==> c in p.writes)
  }

  ghost predicate Inv(p: Pool) {
    Slots(p) && Replies(p) && Locking(p)
  }

  lemma StepSlots(p: Pool, e: Event)
    requires Inv(p)
    ensures Slots(Step(p, e))
  {
    match e
    case Arrive(c, _) => assert c !in p.replies ==> c !in p.running;
    case Finish(c) =>
      if c in p.running { assert p.running == (p.running - {c})[c := p.running[c]]; }
    case TakeLock(c) => if c in p.running { SameSize(p.running, c, Locked); SameSize(p.running, c, Unlocked(false)); }
    case Save(c) => if c in p.running { SameSize(p.running, c, Reserved); SameSize(p.running, c, p.running[c]); }
    case Acknowledge(c) => if c in p.running { SameSize(p.running, c, Acknowledged); }
    case Unlock(c) => if c in p.running { SameSize(p.running, c, Unlocked(p.running[c] == Acknowledged)); }
    case Answer(c) => if c in p.running { SameSize(p.running, c, Answered); }
    case Shutdown =>
  }

  lemma SameSize(m: map<Client, Stage>, c: Client, s: Stage)
    requires c in m
    ensures |m[c := s]| == |m|
  {
    assert m[c := s].Keys == m.Keys;
  }

  lemma StepReplies(p: Pool, e: Event)
    requires Inv(p)
    ensures Replies(Step(p, e))
  {
    hide Slots;
    match e
    case Save(c) => hide Sent, Arrived;
    case Finish(c) => hide Sent, Arrived;
    case _ =>
  }

  lemma StepLocking(p: Pool, e: Event)
    requires Inv(p)
    ensures Locking(Step(p, e))
  {
    hide Slots;
    match e
    case Save(c) => assert forall d :: d in p.writes ==> d in p.writes + [c];
    case Unlock(c) =>
      assert Inside(p, c) ==> p.holder == Some(c);
      forall d ensures Inside(Step(p, e), d) ==> Inside(p, d) && d != c {}
    case _ =>
  }

  lemma StepKeeps(p: Pool, e: Event)
    requires Inv(p)
    ensures Inv(Step(p, e))
  {
    StepSlots(p, e);
    StepReplies(p, e);
    StepLocking(p, e);
    hide Slots, Replies, Locking, Step;
  }

  /** Under any interleaving: free slots and handlers in flight always add up to the workers, so a
      slot is never released twice and never lost; at most one handler is inside the journal lock. */
  lemma {:induction false} SlotsAreConserved(workers: nat, events: seq<Event>)
    ensures Inv(After(workers, events))
    ensures After(workers, events).free + |After(workers, events).running| == workers
    ensures 0 <= After(workers, events).free <= workers
  {
    if events != [] {
      SlotsAreConserved(workers, events[..|events| - 1]);
      var p := After(workers, events[..|events| - 1]);
      StepKeeps(p, events[|events| - 1]);
      StepKeepsWorkers(p, events[|events| - 1]);
    }
    NeverNegative(After(workers, events));
  }

  lemma StepKeepsWorkers(p: Pool, e: Event)
    ensures Step(p, e).workers == p.workers
  {
  }

  lemma NeverNegative(p: Pool)
    requires Inv(p)
    ensures p.free <= p.workers
  {
  }

  /** Every handler that has finished sent exactly one reply, and none sends a second one; a client
      that was turned away was sent none. */
  lemma OneReplyEach(workers: nat, events: seq<Event>, c: Client)
    ensures var p := After(workers, events);
      && (c in p.replies ==> p.replies[c] <= 1)
      && (c in p.replies && c !in p.running ==> p.replies[c] == 1)
      && (c in p.turnedAway ==> c !in p.replies)
  {
    SlotsAreConserved(workers, events);
  }

  /** Only the owner of the lock changes the journal, and an acknowledgement is only sent by an
      owner whose reservation is already written. */
  lemma OnlyOwnerWrites(workers: nat, events: seq<Event>, e: Event)
    ensures var p, p' := After(workers, events), Step(After(workers, events), e);
      && (p'.writes != p.writes ==> e.Save? && p.holder == Some(e.client) && p'.writes == p.writes + [e.client])
      && (e.Acknowledge? && p' != p ==> p.holder == Some(e.client) && e.client in p.writes)
      && (forall c, d :: Inside(p, c) && Inside(p, d) ==> c == d)
  {
    SlotsAreConserved(workers, events);
  }

  // ----------------------------------------------------------------------------------------
  // Nobody is turned away without need

  /** A new client is served exactly if fewer handlers are in flight than there are workers and the
      pool takes one more; a client that is turned away changes nothing for the others. Only a pool
      that refuses ends the loop. */
  lemma ArrivalIsServed(workers: nat, events: seq<Event>, c: Client, poolTakes: bool)
    requires After(workers, events).accepting
    requires c !in After(workers, events).replies && c !in After(workers, events).turnedAway
    ensures var p, p' := After(workers, events), Step(After(workers, events), Arrive(c, poolTakes));
      if |p.running| < workers && poolTakes then
        p'.running == p.running[c := Started] && p'.replies == p.replies[c := 0] && p'.turnedAway == p.turnedAway
        && p'.accepting
      else
        p'.running == p.running && p'.replies == p.replies && p'.turnedAway == p.turnedAway + {c}
        && p'.free == p.free && (p'.accepting <==> |p.running| == workers)
  {
    SlotsAreConserved(workers, events);
  }

  /** The lock goes to whoever asks while nobody is inside; anybody else is answered at once. */
  lemma LockIsTaken(workers: nat, events: seq<Event>, c: Client)
    requires c in After(workers, events).running && After(workers, events).running[c] == Started
    ensures var p := After(workers, events);
      if exists d :: Inside(p, d) then
        Step(p, TakeLock(c)) == p.(running := p.running[c := Unlocked(false)])
        && c in p.replies && Step(Step(p, TakeLock(c)), Answer(c)) ==
             p.(running := p.running[c := Answered], replies := p.replies[c := 1])
      else Step(p, TakeLock(c)) == p.(holder := Some(c), running := p.running[c := Locked])
  {
    SlotsAreConserved(workers, events);
    var p := After(workers, events);
    assert p.holder.Some? ==> Inside(p, p.holder.value);
    Waiting(p, c);
    hide Inv, After;
    assert p.running[c := Unlocked(false)][c := Answered] == p.running[c := Answered];
  }

  lemma Waiting(p: Pool, c: Client)
    requires Inv(p) && c in p.running && p.running[c] == Started
    ensures c in p.replies && p.replies[c] == 0
    ensures (exists d :: Inside(p, d)) <==> p.holder.Some?
  {
    hide Slots;
    assert p.holder.Some? ==> Inside(p, p.holder.value);
  }

  /** A client that finds a free slot and a free lock is served to the end: its job is written, it is
      told so once, and slot and lock are free again. */
  lemma HandlerRunsThrough(p: Pool, c: Client)
    requires Inv(p) && p.accepting && c !in p.replies && c !in p.turnedAway && p.free > 0 && p.holder.None?
    ensures var told := Step(Step(Step(Step(p, Arrive(c, true)), TakeLock(c)), Save(c)), Acknowledge(c));
      && told.writes == p.writes + [c] && told.replies == p.replies[c := 1]
      && Step(Step(Step(told, Unlock(c)), Answer(c)), Finish(c)) == p.(writes := told.writes, replies := told.replies)
  {
    NotRunning(p, c);
    hide Inv;
    var told := p.(free := p.free - 1, holder := Some(c), running := p.running[c := Acknowledged],
                   replies := p.replies[c := 1], writes := p.writes + [c]);
    GetsTold(p, c, told);
    hide Step;
    GetsDone(p, c, told);
  }

  lemma NotRunning(p: Pool, c: Client)
    requires Inv(p) && c !in p.replies
    ensures c !in p.running
  {
    hide Slots, Locking;
  }

  lemma GetsTold(p: Pool, c: Client, told: Pool)
    requires p.accepting && c !in p.replies && c !in p.turnedAway && p.free > 0 && p.holder.None? && c !in p.running
    requires told == p.(free := p.free - 1, holder := Some(c), running := p.running[c := Acknowledged],
                        replies := p.replies[c := 1], writes := p.writes + [c])
    ensures Step(Step(Step(Step(p, Arrive(c, true)), TakeLock(c)), Save(c)), Acknowledge(c)) == told
  {
    var started := p.(free := p.free - 1, running := p.running[c := Started], replies := p.replies[c := 0]);
    assert Step(p, Arrive(c, true)) == started;
    var locked := started.(holder := Some(c), running := p.running[c := Locked]);
    assert started.running[c := Locked] == p.running[c := Locked];
    assert Step(started, TakeLock(c)) == locked;
    var saved := locked.(running := p.running[c := Reserved], writes := p.writes + [c]);
    assert locked.running[c := Reserved] == p.running[c := Reserved];
    assert Step(locked, Save(c)) == saved;
    assert saved.running[c := Acknowledged] == p.running[c := Acknowledged]
      && saved.replies[c := 1] == p.replies[c := 1];
  }

  lemma GetsDone(p: Pool, c: Client, told: Pool)
    requires c !in p.replies && c !in p.running && p.holder.None?
    requires told == p.(free := p.free - 1, holder := Some(c), running := p.running[c := Acknowledged],
                        replies := p.replies[c := 1], writes := p.writes + [c])
    ensures Step(Step(Step(told, Unlock(c)), Answer(c)), Finish(c)) ==
      p.(writes := told.writes, replies := told.replies)
  {
    var unlocked := told.(holder := None, running := p.running[c := Unlocked(true)]);
    assert told.running[c := Unlocked(true)] == p.running[c := Unlocked(true)];
    assert Step(told, Unlock(c)) == unlocked;
    var answered := unlocked.(running := p.running[c := Answered]);
    assert unlocked.running[c := Answered] == p.running[c := Answered];
    assert Step(unlocked, Answer(c)) == answered;
    assert answered.running - {c} == p.running;
  }
}
