/**
 * One receive/compose/reply step of the CCD worker.  A FRAME is composed only inside
 * a cache-sync bracket around both buffers; every ioctl result is an input.
 */
module Worker {
  import opened Errno
  import opened Words
  import opened Capture
  import opened Composer
  import opened Recipe

  datatype Side = MessageSide | WorkSide

  /** What the worker does to the outside world, in order. */
  datatype Event =
    | SyncStart(side: Side, code: int)
    | SyncEnd(side: Side, code: int)
    | Dispatched(composed: bool)
    | Send(reply: seq<byte>, code: int)


  /** Results of the ioctls that a step may perform. */
  datatype Ioctls = Ioctls(startMessage: Code, startWork: Code, endWork: Code, endMessage: Code, write: Code)

  /** `outcome` is the dispatch that ran, if any. */
  datatype Step = Step(s: Session, ret: int, events: seq<Event>, outcome: Option<Outcome>)

  // ---------------------------------------------------------------- the step as a function

  predicate Addressed(s: Session, ccdFd: int, req: Item) {
    && ccdFd >= 0 && 6 <= req.len <= BUF_MAX && !s.closed
    && req.src == s.session + IPI_ISP_MAIN && req.id == req.src && req.session == s.session
  }

  function Worse(ret: int, cleanup: Code): int {
    if cleanup != 0 && ret >= 0 then cleanup else ret
  }

  /** Latches any error but ESTALE, or sends the reply. */
  function Settle(s: Session, ret: int, io: Ioctls, events: seq<Event>, outcome: Option<Outcome>): Step {
    if ret < 0 then
      var t := if ret != ESTALE then Latch(s, ret) else s;
      Step(t, if ret == ESTALE then ret else t.firstError, events, outcome)
    else if ret == 1 && outcome.Some? then
      var sent := events + [Send(outcome.value.reply, io.write)];
      if io.write != 0 then Step(Latch(s, io.write), Latch(s, io.write).firstError, sent, outcome)
      else Step(s, 0, sent, outcome)
    else Step(s, 0, events, outcome)
  }

  function ComposeReply(s: Session, message: seq<byte>, ccdFd: int, req: Item, io: Ioctls): Step {
    if !Addressed(s, ccdFd, req) then Step(s, EINVAL, [], None)
    else
      var o := Dispatch(s, message, req);
      if req.command != CMD_FRAME then Settle(o.s, o.ret, io, [Dispatched(o.composed)], Some(o))
      else if s.firstError != 0 then Step(s, s.firstError, [], None)
      else if req.cookie != s.job.sequence || s.frameStarted || s.flushed || !s.configured then Step(s, ESTALE, [], None)
      else if io.startMessage != 0 then
        Settle(s, io.startMessage, io, [SyncStart(MessageSide, io.startMessage)], None)
      else if io.startWork != 0 then
        Settle(s, io.startWork, io,
               [SyncStart(MessageSide, 0), SyncStart(WorkSide, io.startWork), SyncEnd(MessageSide, io.endMessage)], None)
      else
        Settle(o.s, Worse(Worse(o.ret, io.endWork), io.endMessage), io,
               [SyncStart(MessageSide, 0), SyncStart(WorkSide, 0), Dispatched(o.composed),
                SyncEnd(WorkSide, io.endWork), SyncEnd(MessageSide, io.endMessage)], Some(o))
  }

  /** `read` is the result of the blocking READ, which may also return no envelope. */
  function ReceiveOnce(s: Session, message: seq<byte>, ccdFd: int, read: Code, req: Item, io: Ioctls): Step {
    if ccdFd < 0 || s.closed then Step(s, ENOTCONN, [], None)
    else if read != 0 then Step(s, read, [], None)
    else if req.len == 0 then Step(s, ENOMSG, [], None)
    else ComposeReply(s, message, ccdFd, req, io)
  }

  /** The reply that left the worker, if any. */
  function Sent(step: Step): Option<seq<byte>> {
    if step.events != [] && step.events[|step.events| - 1].Send? && step.events[|step.events| - 1].code == 0
    then Some(step.events[|step.events| - 1].reply) else None
  }

  // ---------------------------------------------------------------- bracketing

  /** The sides under CPU access after `events`, innermost last; None if an event was out of place. */
  function Open(events: seq<Event>): Option<seq<Side>> {
    if events == [] then Some([])
    else
      match Open(events[..|events| - 1])
      case None => None
      case Some(open) => After(open, events[|events| - 1])
  }

  /** Work is mutated only under both sides; replies leave only under none; ENDs close in reverse order. */
  function After(open: seq<Side>, e: Event): Option<seq<Side>> {
    match e
    case SyncStart(side, code) => if side in open then None else if code == 0 then Some(open + [side]) else Some(open)
    case SyncEnd(side, _) =>
      if open != [] && open[|open| - 1] == side then Some(open[..|open| - 1]) else None
    case Dispatched(composed) => if composed && open != [MessageSide, WorkSide] then None else Some(open)
    case Send(_, _) => if open == [] then Some(open) else None
  }

  lemma OpenSnoc(events: seq<Event>, e: Event)
    requires Open(events).Some?
    ensures Open(events + [e]) == After(Open(events).value, e)
  {
    assert (events + [e])[..|events|] == events;
  }

  lemma OnlyFrameComposes(s: Session, message: seq<byte>, req: Item)
    requires Dispatch(s, message, req).composed
    ensures req.command == CMD_FRAME && Dispatch(s, message, req).ret == 1
  {
    hide FrameCode, InputsCode, AckBytes, Word;
  }

  /**
   * For every combination of ioctl failures: successful STARTs are matched by one END each, in
   * reverse order; the work buffer changes only inside both brackets; and an ACK to a FRAME
   * is written only after all four syncs succeeded.
   */
  lemma CacheBracket(s: Session, message: seq<byte>, ccdFd: int, req: Item, io: Ioctls)
    ensures var step := ComposeReply(s, message, ccdFd, req, io);
            && Open(step.events) == Some([])
            && (req.command == CMD_FRAME && Sent(step).Some? ==>
                  step.events[..5] == [SyncStart(MessageSide, 0), SyncStart(WorkSide, 0), Dispatched(step.outcome.value.composed),
                                       SyncEnd(WorkSide, 0), SyncEnd(MessageSide, 0)])
  {
    hide Dispatch, Open, After, ComposeReply;
    var step, o := ComposeReply(s, message, ccdFd, req, io), Dispatch(s, message, req);
    OpenEmpty();
    if o.composed {
      OnlyFrameComposes(s, message, req);
    }
    if step.events != [] {
      var sends := StepEvents(s, message, ccdFd, req, io);
      if req.command != CMD_FRAME {
        SettleOpen([], Dispatched(o.composed), sends);
      } else {
        FrameOpen(o.composed, io);
        SettleOpen(FramePrefix(o.composed, io), FrameLast(io), sends);
        if Sent(step).Some? {
          OutcomeOfFrame(s, message, ccdFd, req, io);
        }
      }
    }
  }

  lemma OpenEmpty()
    ensures Open([]) == Some([]) && After([], Dispatched(false)) == Some([])
  {}

  lemma OutcomeOfFrame(s: Session, message: seq<byte>, ccdFd: int, req: Item, io: Ioctls)
    requires req.command == CMD_FRAME && Sent(ComposeReply(s, message, ccdFd, req, io)).Some?
    ensures ComposeReply(s, message, ccdFd, req, io).outcome == Some(Dispatch(s, message, req))
  {
    hide Dispatch, Latch;
  }

  /** All but the last of the events of a FRAME before its reply, and the last. */
  function FramePrefix(composed: bool, io: Ioctls): seq<Event> {
    if io.startMessage != 0 then []
    else if io.startWork != 0 then [SyncStart(MessageSide, 0), SyncStart(WorkSide, io.startWork)]
    else [SyncStart(MessageSide, 0), SyncStart(WorkSide, 0), Dispatched(composed), SyncEnd(WorkSide, io.endWork)]
  }

  function FrameLast(io: Ioctls): Event {
    if io.startMessage != 0 then SyncStart(MessageSide, io.startMessage) else SyncEnd(MessageSide, io.endMessage)
  }

  lemma FrameOpen(composed: bool, io: Ioctls)
    ensures Open(FramePrefix(composed, io)).Some?
    ensures After(Open(FramePrefix(composed, io)).value, FrameLast(io)) == Some([])
  {
    hide Open;
    OpenEmpty();
    var a, b := SyncStart(MessageSide, 0), SyncStart(WorkSide, io.startWork);
    OpenSnoc([], a);
    assert [] + [a] == [a];
    OpenSnoc([a], b);
    assert [a] + [b] == [a, b];
    if io.startWork == 0 {
      OpenSnoc([a, b], Dispatched(composed));
      assert [a, b] + [Dispatched(composed)] == [a, b, Dispatched(composed)];
      var d, e := Dispatched(composed), SyncEnd(WorkSide, io.endWork);
      OpenSnoc([a, b, d], e);
      assert [a, b, d] + [e] == [a, b, d, e];
    }
  }

  lemma SettleOpen(prefix: seq<Event>, last: Event, sends: seq<Event>)
    requires Open(prefix).Some? && After(Open(prefix).value, last) == Some([])
    requires sends == [] || (|sends| == 1 && sends[0].Send?)
    ensures Open(prefix + [last] + sends) == Some([])
  {
    hide Open;
    OpenSnoc(prefix, last);
    if sends == [] {
      assert prefix + [last] + sends == prefix + [last];
    } else {
      OpenSnoc(prefix + [last], sends[0]);
      assert prefix + [last] + sends == prefix + [last] + [sends[0]];
    }
  }

  /** A step's events before its reply, and the reply. */
  lemma StepEvents(s: Session, message: seq<byte>, ccdFd: int, req: Item, io: Ioctls) returns (sends: seq<Event>)
    requires ComposeReply(s, message, ccdFd, req, io).events != []
    ensures sends == [] || (|sends| == 1 && sends[0].Send?)
    ensures var o, events := Dispatch(s, message, req), ComposeReply(s, message, ccdFd, req, io).events;
            if req.command != CMD_FRAME then events == [] + [Dispatched(o.composed)] + sends
            else events == FramePrefix(o.composed, io) + [FrameLast(io)] + sends
                 && (Sent(ComposeReply(s, message, ccdFd, req, io)).Some? ==>
                       io.startMessage == 0 && io.startWork == 0 && io.endWork == 0 && io.endMessage == 0)
  {
    hide Dispatch, Latch;
    var step := ComposeReply(s, message, ccdFd, req, io);
    var last := step.events[|step.events| - 1];
    sends := if last.Send? then [last] else [];
  }

  /** A step for another session, endpoint or a closed session does nothing; so does a malformed one. */
  lemma ForeignRefused(s: Session, message: seq<byte>, ccdFd: int, req: Item, io: Ioctls)
    requires ccdFd < 0 || req.len < 6 || req.len > 1024 || s.closed || req.src != s.session + 1 || req.id != req.src || req.session != s.session
    ensures ComposeReply(s, message, ccdFd, req, io) == Step(s, EINVAL, [], None)
  {}

  function EventCode(e: Event): int {
    match e
    case SyncStart(_, code) => code
    case SyncEnd(_, code) => code
    case Dispatched(_) => 0
    case Send(_, code) => code
  }

  predicate AnyFailed(events: seq<Event>) {
    exists k | 0 <= k < |events| :: EventCode(events[k]) != 0
  }

  /** No failed cache sync or write goes unnoticed: it is latched in the session, or the step returns ESTALE. */
  lemma FailureSeen(s: Session, message: seq<byte>, ccdFd: int, read: Code, req: Item, io: Ioctls)
    ensures var step := ReceiveOnce(s, message, ccdFd, read, req, io);
            AnyFailed(step.events) ==> step.s.firstError != 0 || step.ret == ESTALE
  {
    hide Dispatch;
  }

  /** A closed session, a failed READ and an empty envelope do nothing; the last two are told apart by the result. */
  lemma NothingReceived(s: Session, message: seq<byte>, ccdFd: int, read: Code, req: Item, io: Ioctls)
    requires ccdFd < 0 || s.closed || read != 0 || req.len == 0
    ensures var step := ReceiveOnce(s, message, ccdFd, read, req, io);
            && step.s == s && step.events == [] && step.outcome.None?
            && step.ret == if ccdFd < 0 || s.closed then ENOTCONN else if read != 0 then read else ENOMSG
  {}

  // ---------------------------------------------------------------- the step as code

  /** Performs one blocking receive and its step. */
  method ReceiveReply(session: ComposerSession, ccdFd: int, read: Code, req: Item, io: Ioctls) returns (ret: int, events: seq<Event>)
    requires session.Valid()
    modifies session, session.work
    ensures session.Valid() && session.work == old(session.work) && session.message == old(session.message)
    ensures var step := ReceiveOnce(old(session.State()), old(session.message[..]), ccdFd, read, req, io);
            && session.State() == step.s && ret == step.ret && events == step.events
            && (if step.outcome.Some? then WorkStep(old(session.work[..]), session.work[..], step.outcome.value)
                else session.work[..] == old(session.work[..]))
  {
    hide ComposeReply, WorkStep, InRange, Overlap, InputsCode;
    if ccdFd < 0 || session.closed {
      return ENOTCONN, [];
    }
    if read != 0 {
      return read, [];
    }
    if req.len == 0 {
      return ENOMSG, [];
    }
    ret, events := Reply(session, ccdFd, req, io);
  }

  /** Performs the step on a live session; the log is what was asked of the kernel. */
  method Reply(session: ComposerSession, ccdFd: int, req: Item, io: Ioctls) returns (ret: int, events: seq<Event>)
    requires session.Valid()
    modifies session, session.work
    ensures session.Valid() && session.work == old(session.work) && session.message == old(session.message)
    ensures var step := ComposeReply(old(session.State()), old(session.message[..]), ccdFd, req, io);
            && session.State() == step.s && ret == step.ret && events == step.events
            && (if step.outcome.Some? then WorkStep(old(session.work[..]), session.work[..], step.outcome.value)
                else session.work[..] == old(session.work[..]))
  {
    hide Dispatch, WorkStep, InRange, Overlap, InputsCode, Settle;
    var reply: seq<byte> := [];
    var messageSync, workSync := false, false;
    ghost var start, heard, ran := session.State(), session.message[..], false;
    events := [];
    if !Addressed(session.State(), ccdFd, req) {
      return EINVAL, [];
    }
    ret := 0;
    if req.command == CMD_FRAME {
      if session.firstError != 0 {
        return session.firstError, [];
      }
      if req.cookie != session.job.sequence || session.frameStarted || session.flushed || !session.configured {
        return ESTALE, [];
      }
      ret, events := io.startMessage, [SyncStart(MessageSide, io.startMessage)];
      messageSync := ret == 0;
      if messageSync {
        ret, events := io.startWork, events + [SyncStart(WorkSide, io.startWork)];
        workSync := ret == 0;
      }
    }
    if ret == 0 {
      DispatchKeeps(session.State(), session.message[..], req);
      var composed;
      ret, reply, composed := session.Receive(req);
      ran := true;
      events := events + [Dispatched(composed)];
    }
    if workSync {
      events := events + [SyncEnd(WorkSide, io.endWork)];
      ret := Worse(ret, io.endWork);
    }
    if messageSync {
      events := events + [SyncEnd(MessageSide, io.endMessage)];
      ret := Worse(ret, io.endMessage);
    }
    ghost var o := Dispatch(start, heard, req);
    if req.command != CMD_FRAME {
      assert events == [Dispatched(o.composed)];
    } else if io.startMessage != 0 {
      assert events == [SyncStart(MessageSide, io.startMessage)];
    } else if io.startWork != 0 {
      assert events == [SyncStart(MessageSide, 0), SyncStart(WorkSide, io.startWork), SyncEnd(MessageSide, io.endMessage)];
    } else {
      assert events == [SyncStart(MessageSide, 0), SyncStart(WorkSide, 0), Dispatched(o.composed),
                        SyncEnd(WorkSide, io.endWork), SyncEnd(MessageSide, io.endMessage)];
    }
    ret, events := Conclude(session, ret, reply, io, events, if ran then Some(o) else None);
  }

  /** Latches an error of the bracket, or sends the reply and latches a failed send. */
  method Conclude(session: ComposerSession, before: int, reply: seq<byte>, io: Ioctls, log: seq<Event>, ghost outcome: Option<Outcome>)
    returns (ret: int, events: seq<Event>)
    requires session.Valid() && -4096 < before && (before == 1 ==> outcome.Some? && outcome.value.reply == reply)
    modifies session`firstError
    ensures session.Valid() && Step(session.State(), ret, events, outcome) == Settle(old(session.State()), before, io, log, outcome)
  {
    hide InRange, Overlap, InputsCode;
    ret, events := before, log;
    if ret < 0 {
      if ret != ESTALE && session.firstError == 0 {
        session.firstError := ret;
      }
      ret := if ret == ESTALE then ret else session.firstError;
      return;
    }
    if ret == 1 {
      events := events + [Send(reply, io.write)];
      if io.write != 0 {
        if session.firstError == 0 {
          session.firstError := io.write;
        }
        ret := session.firstError;
        return;
      }
    }
    ret := 0;
  }
}
