/** One connection, one request, one reply: the handler around the runner, and the accept loop
    with its worker slots. */
module Service {
  import opened Protocol
  import opened History
  import JF = JournalFile
  import T = Transaction
  import opened TransactionLaws
  import opened JournalLaws
  import R = Runner

  const MAX_REQUEST_BYTES := 2048

  /** A decoded request; `trusted` is whether its credential is the provisioned one. */
  datatype Query = StatusQuery | Update(req: Request, wantsAck: bool, trusted: bool)

  /** What arrives in time: the announced size and, if the body follows, what it decodes to. */
  datatype Frame = Frame(size: int, body: Option<Result<Query>>)

  datatype Message = Accepted(job: Job) | StatusIs(last: Option<Job>, executor: bool) | Rejected(code: Code)

  lemma StoreIsValid(w: T.World)
    requires Inv(w)
    ensures w.store.disk.Some? && History.Valid(w.store.disk.value)
  {
    hide History.Valid;
  }

  class Connection {
    const local_: bool
    const peer: int
    const frame: Option<Frame>
    var sent: seq<Message>

    constructor (local_: bool, peer: int, frame: Option<Frame>)
      ensures sent == []
    {
      this.local_, this.peer, this.frame := local_, peer, frame;
      sent := [];
    }
  }

  class UpdateService {
    const allowedPeer: int
    const runner: R.TransactionRunner

    constructor (allowedPeer: int, runner: R.TransactionRunner)
      ensures this.allowedPeer == allowedPeer && this.runner == runner
    {
      this.allowedPeer, this.runner := allowedPeer, runner;
    }

    /** A job that the journal holds from now on. */
    ghost predicate Durable(id: string)
      reads runner
    {
      var disk := runner.world.store.disk;
      disk.Some? && JF.Find(disk.value.jobs, id) < |disk.value.jobs|
    }

    /** The journal's view of the last job; nothing is locked or changed. */
    method Status(io: JF.Io) returns (m: Message)
      requires runner.Ended()
      ensures m == Current(io)
    {
      hide History.Valid, Text, JF.ReadStep, Inv;
      Reachable(runner.moves);
      StoreIsValid(runner.world);
      ReadValid(runner.world.store, runner.world.store.disk.value, io);
      var read := runner.journal.Read(io);
      if read.Failure? {
        return Rejected(read.code);
      }
      var jobs := read.value.jobs;
      return StatusIs(if jobs == [] then None else Some(jobs[|jobs| - 1]), runner.hasExecutor);
    }

    /** The last job, if the journal can be read. */
    ghost function Current(io: JF.Io): Message
      reads runner
    {
      var disk := runner.world.store.disk;
      if io == JF.Unreadable || disk.None? then Rejected(JournalUnsafe)
      else if disk.value.jobs == [] then StatusIs(None, runner.hasExecutor)
      else StatusIs(Some(disk.value.jobs[|disk.value.jobs| - 1]), runner.hasExecutor)
    }

    /** What a decoded request will be answered, as far as it is known before it is run: only for a
        request that is reserved just now the answer is still open. */
    ghost function Foreseen(peer: int, body: Result<Query>, lock: JF.LockFile, io: JF.Io): Option<Message>
      reads runner, runner.journal
    {
      if peer != allowedPeer then Some(Rejected(PeerDenied))
      else if body.Failure? then Some(Rejected(body.code))
      else match body.value
        case StatusQuery => Some(Current(io))
        case Update(req, _, trusted) =>
          var begun := runner.Reservation(req);
          if !trusted then Some(Rejected(AuthorizationRequired))
          else if runner.Refusal(req, lock).Some? then Some(Rejected(runner.Refusal(req, lock).value))
          else if begun.Failure? then Some(Rejected(begun.code))
          else if !begun.value.created then Some(Accepted(begun.value.job))
          else None
    }

    /** The acknowledgement of a request that the journal has, for a client that wants one. */
    ghost function Acknowledged(peer: int, body: Result<Query>, lock: JF.LockFile): Option<Message>
      reads runner, runner.journal
    {
      if peer == allowedPeer && body.Success? && body.value.Update? && body.value.trusted && body.value.wantsAck
         && runner.Refusal(body.value.req, lock).None? && runner.Reservation(body.value.req).Success?
      then Some(Accepted(runner.Reservation(body.value.req).value.job)) else None
    }

    /** Unknown peers are rejected before anything else, and no request reaches the journal or the
        host without a trusted credential. Nothing is returned when the process dies. */
    method Handle(peer: int, body: Result<Query>, thread: nat, lock: JF.LockFile, io: JF.Io)
      returns (reply: Option<Message>, ack: Option<Message>)
      requires runner.Ended() && runner.world.up && !runner.journal.localLock
      modifies runner`asked, runner`saved, runner`world, runner`moves, runner.journal
      ensures reply.None? <==> !runner.world.up
      ensures reply.Some? ==> runner.Ended() && !runner.journal.localLock
      ensures ack.Some? ==> ack.value.Accepted? && Durable(ack.value.job.id)
      ensures ack.Some? <==> runner.world.acks != old(runner.world.acks)
      ensures ack == old(Acknowledged(peer, body, lock))
      ensures old(Foreseen(peer, body, lock, io)).Some? ==> reply == old(Foreseen(peer, body, lock, io))
      ensures (peer != allowedPeer || body.Failure? || body.value.StatusQuery? || !body.value.trusted) ==>
        runner.world == old(runner.world) && runner.moves == old(runner.moves) && ack.None?
      // A trusted update reaches the runner; a new one is accepted exactly if it is done.
      ensures peer == allowedPeer && body.Success? && body.value.Update? && body.value.trusted ==>
        var req, wantsAck := body.value.req, body.value.wantsAck;
        old(runner.Refusal(req, lock)).None? ==>
          && |runner.moves| > |old(runner.moves)|
          && runner.moves[|old(runner.moves)|] == old(runner.Reserving(req, wantsAck))
          && (old(Foreseen(peer, body, lock, io)).None? && reply.Some? ==>
                (reply.value.Accepted? <==> runner.Done(req.id)))
    {
      hide T.After, T.Step, History.Valid, JF.BeginStep, R.Concluded;
      ack := None;
      if peer != allowedPeer {
        return Some(Rejected(PeerDenied)), None;
      }
      if body.Failure? {
        return Some(Rejected(body.code)), None;
      }
      match body.value
      case StatusQuery =>
        var status := Status(io);
        return Some(status), None;
      case Update(req, wantsAck, trusted) =>
        if !trusted {
          return Some(Rejected(AuthorizationRequired)), None;
        }
        var answer, reserved := runner.Execute(req, wantsAck, thread, lock);
        if reserved.Some? {
          ack := Some(Accepted(reserved.value));
          AcknowledgedIsDurable(runner.moves, |runner.world.acks| - 1);
        }
        match answer
        case NoReply =>
          return None, ack;
        case Answered(result) =>
          reply := Some(if result.Success? then Accepted(result.value) else Rejected(result.code));
    }

    /** The announced size is allowed, and the body follows in time. */
    predicate Framed(connection: Connection) {
      connection.frame.Some? && 0 < connection.frame.value.size <= 2048 && connection.frame.value.body.Some?
    }

    /** What arrives is a trusted update from the provisioned peer. */
    predicate Asks(connection: Connection) {
      && connection.local_ && connection.peer == allowedPeer && Framed(connection)
      && connection.frame.value.body.value.Success? && connection.frame.value.body.value.value.Update?
      && connection.frame.value.body.value.value.trusted
    }

    function Asked(connection: Connection): Query
      requires Asks(connection)
      ensures Asked(connection).Update?
    {
      connection.frame.value.body.value.value
    }

    /** Exactly one reply is attempted on every connection: the acknowledgement, once the job is
        durable, or else the result. Only the death of the process can leave a client with none. */
    method Serve(connection: Connection, thread: nat, lock: JF.LockFile, io: JF.Io)
      requires runner.Ended() && runner.world.up && !runner.journal.localLock
      modifies connection`sent, runner`asked, runner`saved, runner`world, runner`moves, runner.journal
      ensures runner.world.up ==>
        |connection.sent| == |old(connection.sent)| + 1 && runner.Ended() && !runner.journal.localLock
      ensures connection.sent == old(connection.sent) ||
        exists m :: connection.sent == old(connection.sent) + [m]
      ensures !connection.local_ || connection.peer != allowedPeer ==>
        connection.sent == old(connection.sent) + [Rejected(PeerDenied)] && runner.world == old(runner.world)
      // What is sent is a rejection of what cannot be read, or the acknowledgement, or the reply.
      ensures connection.local_ && connection.peer == allowedPeer ==>
        if !Framed(connection) then
          connection.sent == old(connection.sent) + [Rejected(BadRequest)] && runner.world == old(runner.world)
        else
          var ack := old(Acknowledged(connection.peer, connection.frame.value.body.value, lock));
          var reply := old(Foreseen(connection.peer, connection.frame.value.body.value, lock, io));
          && (ack.Some? ==> connection.sent == old(connection.sent) + [ack.value])
          && (ack.None? && reply.Some? ==> connection.sent == old(connection.sent) + [reply.value])
          && (ack.None? && reply.None? && connection.sent != old(connection.sent) ==>
                (connection.sent[|connection.sent| - 1].Accepted? <==> runner.Done(Asked(connection).req.id)))
      ensures runner.world.acks != old(runner.world.acks) ==>
        |connection.sent| == |old(connection.sent)| + 1 && connection.sent[|connection.sent| - 1].Accepted?
        && Durable(connection.sent[|connection.sent| - 1].job.id)
      ensures Asks(connection) && old(runner.Refusal(Asked(connection).req, lock)).None? ==>
        && |runner.moves| > |old(runner.moves)|
        && runner.moves[|old(runner.moves)|] == old(runner.Reserving(Asked(connection).req, Asked(connection).wantsAck))
    {
      hide T.After, T.Step, History.Valid, JF.BeginStep, R.Concluded;
      if !connection.local_ || connection.peer != allowedPeer {
        connection.sent := connection.sent + [Rejected(PeerDenied)];
        return;
      }
      if connection.frame.None? || !(0 < connection.frame.value.size <= MAX_REQUEST_BYTES)
        || connection.frame.value.body.None? {
        connection.sent := connection.sent + [Rejected(BadRequest)];
        return;
      }
      var acknowledged := false;
      var reply, ack := Handle(connection.peer, connection.frame.value.body.value, thread, lock, io);
      if ack.Some? {
        acknowledged := true;
        connection.sent := connection.sent + [ack.value];
      }
      if reply.Some? && !acknowledged {
        connection.sent := connection.sent + [reply.value];
      }
    }
  }
}
