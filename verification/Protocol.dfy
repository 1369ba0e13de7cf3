/**
 * The two-party protocol: kernel owner and gate, the requests and replies that were ever
 * sent, the userspace worker and composer, and the shared buffers.  Any sent message may be
 * delivered at any later time, any number of times or never, so delay, loss,
 * duplication and reordering are all covered.  One fresh session per run.
 */
module Protocol {
  import opened Errno
  import opened Words
  import opened Capture
  import opened CommandQueue
  import opened Recipe
  import RegisterImage
  import opened Composer
  import opened Gate
  import opened Worker
  import opened CcdOwner

  /** `delivered` is the reply that a successful frame call handed to the capture owner. */
  datatype System = System(
    owner: Owner, requests: seq<Item>, replies: seq<seq<byte>>,
    composer: Session, message: seq<byte>, work: seq<byte>, delivered: Option<seq<byte>>)

  datatype Label =
    | CreateStep(m: Mappings, send: Code)
    | ConfigStep(c: Config, send: Code)
    | FrameStep(cookie: u32, offset: u32, size: u32, timeout: nat, send: Code)
    | FrameEnd(timedOut: bool)
    | DrainStep(timeout: nat, send: Code)
    | FlushEnd(timedOut: bool, timeout: nat, send: Code)
    | DestroyEnd(timedOut: bool)
    | ReplyStep(i: nat)
    | Hangup
    | Serve(i: nat, ccdFd: int, io: Ioctls)
    | Scribble(message: seq<byte>)

  function Posted(requests: seq<Item>, sent: Option<Item>): seq<Item> {
    if sent.Some? then requests + [sent.value] else requests
  }

  /** The turn that the owner takes on a label, if its lock and phase allow one. */
  function OwnerTurn(o: Owner, l: Label): Option<Turn> {
    match l
    case CreateStep(m, send) => if o.phase == Idle then Some(CreateTurn(o, m, send)) else None
    case ConfigStep(c, send) => if o.phase == Idle then Some(ConfigTurn(o, c, send)) else None
    case FrameStep(cookie, offset, size, timeout, send) =>
      if o.phase == Idle then Some(FrameTurn(o, cookie, offset, size, timeout, send)) else None
    case FrameEnd(timedOut) => if o.phase == Framing && MayFinish(o, timedOut) then Some(FrameDone(o, timedOut)) else None
    case DrainStep(timeout, send) => if o.phase == Idle && o.created then Some(DrainTurn(o, CMD_FLUSH, timeout, send)) else None
    case FlushEnd(timedOut, timeout, send) =>
      if o.phase == Flushing && MayFinish(o, timedOut) then Some(FlushDone(o, timedOut, timeout, send)) else None
    case DestroyEnd(timedOut) =>
      if o.phase == Destroying && MayFinish(o, timedOut) then Some(DestroyDone(o, timedOut)) else None
    case _ => None
  }

  function WorkerStep(x: System, i: nat, ccdFd: int, io: Ioctls): Step
    requires i < |x.requests|
  {
    ComposeReply(x.composer, x.message, ccdFd, x.requests[i], io)
  }

  ghost predicate Next(x: System, l: Label, y: System) {
    match l
    case ReplyStep(i) => i < |x.replies| && y == x.(owner := x.owner.(gate := Receive(x.owner.gate, Some(x.replies[i]))))
    case Hangup => y == x.(owner := x.owner.(gate := Receive(x.owner.gate, None)))
    case Scribble(message) => |message| == |x.message| && y == x.(message := message)
    case Serve(i, ccdFd, io) =>
      i < |x.requests| &&
      var step := WorkerStep(x, i, ccdFd, io);
      && y == x.(composer := step.s, work := y.work,
                 replies := if Sent(step).Some? then x.replies + [Sent(step).value] else x.replies)
      && (if step.outcome.Some? then WorkStep(x.work, y.work, step.outcome.value) else y.work == x.work)
    case _ =>
      var turn := OwnerTurn(x.owner, l);
      && turn.Some?
      && y == x.(owner := turn.value.o, requests := Posted(x.requests, turn.value.sent),
                 delivered := if l.FrameEnd? && turn.value.ret == 0 then Some(x.owner.gate.reply) else x.delivered)
  }

  ghost predicate Initial(x: System) {
    && x.owner == FreshOwner(x.owner.session) && x.owner.session <= 3
    && x.requests == [] && x.replies == [] && x.delivered == None
    && Consistent(x.composer) && x.composer.session == x.owner.session
    && x.composer == FreshSession(x.composer.session, x.composer.mappings, x.composer.resources, x.composer.job, x.composer.config)
    && |x.work| == x.composer.mappings.work.size && |x.message| == x.composer.mappings.message.size
  }

  ghost predicate Run(xs: seq<System>, ls: seq<Label>) {
    |xs| == |ls| + 1 && Initial(xs[0]) && forall i | 0 <= i < |ls| :: Next(xs[i], ls[i], xs[i + 1])
  }

  // ---------------------------------------------------------------- the invariant

  function Sends(requests: seq<Item>, command: byte): nat {
    if requests == [] then 0
    else Sends(requests[..|requests| - 1], command) + (if requests[|requests| - 1].command == command then 1 else 0)
  }

  /** The gate's flags and the owner's phase fit together, and bound the requests ever sent. */
  ghost predicate OwnerInv(o: Owner, requests: seq<Item>) {
    var g := o.gate;
    && g.session == o.session <= 3
    && (g.flushed ==> g.flushStarted) && (g.destroyStarted ==> g.flushed)
    && (g.pending && g.command == CMD_FLUSH ==> g.flushStarted)
    && (o.phase == Framing ==> g.command == CMD_FRAME) && (o.phase == Flushing ==> g.command == CMD_FLUSH)
    && (o.phase == Destroying ==> g.command == CMD_DESTROY)
    && (o.phase == Flushing ==> Sends(requests, CMD_FLUSH) == 1)
    && (o.phase == Destroying ==> Sends(requests, CMD_FLUSH) == 1 && Sends(requests, CMD_DESTROY) == 1)
    && Sends(requests, CMD_FRAME) <= One(g.frameStarted)
    && Sends(requests, CMD_FLUSH) <= One(g.flushStarted)
    && Sends(requests, CMD_DESTROY) <= One(g.destroyStarted)
  }

  /** The recipe is in the work buffer at `offset`. */
  ghost predicate InWork(s: Session, work: seq<byte>, offset: u32) {
    exists size: u32 :: Holds(s, work, offset, size)
  }

  ghost predicate Answers(requests: seq<Item>, a: seq<byte>) {
    exists i | 0 <= i < |requests| :: |a| == ACK_BYTES && requests[i].command == a[6] && requests[i].cookie == Word(a, 1)
  }

  /** Every ACK ever sent is truthful about the composer and answers a request that was sent. */
  ghost predicate GoodReply(s: Session, work: seq<byte>, requests: seq<Item>, a: seq<byte>) {
    && |a| == ACK_BYTES && a[0] == s.session && a[5] == CMD_ACK
    && Answers(requests, a)
    && -4096 < Signed(Word(a, 7)) <= 0 && Signed(Word(a, 7)) != ESTALE
    && (a[6] == CMD_FLUSH ==> s.flushed)
    && (a[6] == CMD_DESTROY ==> s.closed)
    && (a[6] == CMD_FRAME && Word(a, 7) == 0 ==>
          s.frameStarted && Word(a, 1) == s.job.sequence && Word(a, 63) == 720 && InWork(s, work, Word(a, 59)))
  }

  ghost predicate GoodReplies(x: System) {
    forall i | 0 <= i < |x.replies| :: GoodReply(x.composer, x.work, x.requests, x.replies[i])
  }

  predicate FrameSuccess(a: seq<byte>) {
    |a| == ACK_BYTES && a[6] == CMD_FRAME && Word(a, 7) == 0
  }

  ghost predicate Inv(x: System) {
    && OwnerInv(x.owner, x.requests)
    && Consistent(x.composer) && x.composer.session == x.owner.session
    && |x.work| == x.composer.mappings.work.size
    && GoodReplies(x)
    && (x.owner.gate.flushed ==> x.composer.flushed)
    && (x.owner.gate.destroyed ==> x.composer.closed)
    && (x.owner.phase == Framing && !x.owner.gate.pending && x.owner.gate.result == 0 ==>
          x.owner.gate.reply in x.replies && FrameSuccess(x.owner.gate.reply))
    && (x.owner.phase == Destroying && !x.owner.gate.pending && x.owner.gate.result == 0 ==> x.owner.gate.destroyed)
    && (x.delivered.Some? ==> x.delivered.value in x.replies && FrameSuccess(x.delivered.value))
  }

  lemma InitialInv(x: System)
    requires Initial(x)
    ensures Inv(x)
  {
    hide Consistent;
  }

  // ---------------------------------------------------------------- owner steps

  lemma SendsPosted(requests: seq<Item>, sent: Option<Item>, command: byte)
    ensures Sends(Posted(requests, sent), command)
            == Sends(requests, command) + One(sent.Some? && sent.value.command == command)
  {
    if sent.Some? {
      assert (requests + [sent.value])[..|requests|] == requests;
    }
  }

  lemma AnswersPosted(requests: seq<Item>, sent: Option<Item>, a: seq<byte>)
    requires Answers(requests, a)
    ensures Answers(Posted(requests, sent), a)
  {
    var i :| 0 <= i < |requests| && |a| == ACK_BYTES && requests[i].command == a[6] && requests[i].cookie == Word(a, 1);
    assert Posted(requests, sent)[i] == requests[i];
  }

  /** What every owner turn keeps: a gated command is sent only by the turn that sets its flag. */
  ghost predicate TurnKeeps(o: Owner, requests: seq<Item>, t: Turn) {
    && OwnerInv(t.o, Posted(requests, t.sent)) && t.o.session == o.session
    && t.o.gate.flushed == o.gate.flushed && t.o.gate.destroyed == o.gate.destroyed
    && (t.o.phase == Framing || t.o.phase == Destroying ==> t.o.gate.pending)
  }

  lemma ExchangeKeeps(g: GateState, command: byte, cookie: u32, timeout: nat, send: Code)
    requires command == CMD_FRAME || command == CMD_FLUSH || command == CMD_DESTROY
    ensures var h, ok := ExchangeGate(g, command, cookie, timeout, send), ExchangeCode(g, command, cookie, timeout, send) == 0;
            && h.session == g.session && h.flushed == g.flushed && h.destroyed == g.destroyed
            && (g.frameStarted ==> h.frameStarted) && (g.flushStarted ==> h.flushStarted) && (g.destroyStarted ==> h.destroyStarted)
            && (h.destroyStarted && !g.destroyStarted ==> g.flushed)
            && (ok ==> h.pending && h.command == command) && (!ok ==> !h.pending || h == g)
            && (ok && command == CMD_FRAME ==> !g.frameStarted && h.frameStarted)
            && (ok && command == CMD_FLUSH ==> !g.flushStarted && h.flushStarted)
            && (ok && command == CMD_DESTROY ==> !g.destroyStarted && h.destroyStarted)
  {}

  lemma CountTurn(o: Owner, requests: seq<Item>, t: Turn)
    ensures Sends(Posted(requests, t.sent), CMD_FRAME) == Sends(requests, CMD_FRAME) + One(t.sent.Some? && t.sent.value.command == CMD_FRAME)
    ensures Sends(Posted(requests, t.sent), CMD_FLUSH) == Sends(requests, CMD_FLUSH) + One(t.sent.Some? && t.sent.value.command == CMD_FLUSH)
    ensures Sends(Posted(requests, t.sent), CMD_DESTROY) == Sends(requests, CMD_DESTROY) + One(t.sent.Some? && t.sent.value.command == CMD_DESTROY)
  {
    SendsPosted(requests, t.sent, CMD_FRAME);
    SendsPosted(requests, t.sent, CMD_FLUSH);
    SendsPosted(requests, t.sent, CMD_DESTROY);
  }

  lemma PlainTurnsKeep(o: Owner, requests: seq<Item>, m: Mappings, c: Config, send: Code)
    requires OwnerInv(o, requests) && o.phase == Idle
    ensures TurnKeeps(o, requests, CreateTurn(o, m, send)) && TurnKeeps(o, requests, ConfigTurn(o, c, send))
  {
    hide Sends, Posted;
    CountTurn(o, requests, CreateTurn(o, m, send));
    CountTurn(o, requests, ConfigTurn(o, c, send));
  }

  lemma LatchedKeeps(o: Owner, requests: seq<Item>, error: int)
    requires OwnerInv(o, requests)
    ensures OwnerInv(LatchOwner(o, error), requests)
    ensures LatchOwner(o, error).gate == o.gate && LatchOwner(o, error).phase == o.phase && LatchOwner(o, error).session == o.session
  {
    hide Sends;
  }

  /** The owner after FRAME was tried: waiting with one request more, or idle with none. */
  lemma FrameGateKeeps(o: Owner, requests: seq<Item>, cookie: u32, timeout: nat, send: Code, item: Item)
    requires OwnerInv(o, requests) && o.phase == Idle && item.command == CMD_FRAME
    ensures var p := o.(frameSent := true, gate := ExchangeGate(o.gate, CMD_FRAME, cookie, timeout, send));
            if ExchangeCode(o.gate, CMD_FRAME, cookie, timeout, send) != 0 then OwnerInv(p, requests)
            else p.gate.pending && OwnerInv(p.(phase := Framing), Posted(requests, Some(item)))
  {
    hide Sends, Posted, ExchangeGate, ExchangeCode;
    SendsPosted(requests, Some(item), CMD_FRAME);
    SendsPosted(requests, Some(item), CMD_FLUSH);
    SendsPosted(requests, Some(item), CMD_DESTROY);
    ExchangeKeeps(o.gate, CMD_FRAME, cookie, timeout, send);
  }

  lemma FrameTurnKeeps(o: Owner, requests: seq<Item>, cookie: u32, offset: u32, size: u32, timeout: nat, send: Code)
    requires OwnerInv(o, requests) && o.phase == Idle
    ensures TurnKeeps(o, requests, FrameTurn(o, cookie, offset, size, timeout, send))
  {
    hide OwnerInv, ExchangeGate, ExchangeCode, CookieValid, LatchOwner;
    var p := o.(frameSent := true, gate := ExchangeGate(o.gate, CMD_FRAME, cookie, timeout, send));
    var ret := ExchangeCode(o.gate, CMD_FRAME, cookie, timeout, send);
    ExchangeKeeps(o.gate, CMD_FRAME, cookie, timeout, send);
    FrameGateKeeps(o, requests, cookie, timeout, send, CcdOwner.Event(o.session, cookie, CMD_FRAME, NO_BUFFERS, ZERO_CONFIG, offset, size));
    LatchedKeeps(o, requests, EINVAL);
    if ret != 0 {
      LatchedKeeps(p, requests, ret);
    }
  }

  lemma DrainTurnKeeps(o: Owner, requests: seq<Item>, command: byte, timeout: nat, send: Code)
    requires OwnerInv(o, requests) && (command == CMD_FLUSH || command == CMD_DESTROY)
    requires command == CMD_DESTROY ==> Sends(requests, CMD_FLUSH) == 1
    ensures TurnKeeps(o, requests, DrainTurn(o, command, timeout, send))
  {
    hide Sends, Posted, ExchangeGate, ExchangeCode;
    CountTurn(o, requests, DrainTurn(o, command, timeout, send));
    ExchangeKeeps(o.gate, command, 0, timeout, send);
  }

  /** Ending a wait changes nothing that the invariant speaks of. */
  lemma FinishedKeeps(o: Owner, requests: seq<Item>, error: int, p: Owner)
    requires OwnerInv(o, requests) && p.phase == Idle && p.session == o.session && p.gate == Finish(o.gate, error)
    ensures OwnerInv(p, requests) && p.gate.flushed == o.gate.flushed && p.gate.destroyed == o.gate.destroyed
  {
    hide Sends;
  }

  lemma FrameDoneKeeps(o: Owner, requests: seq<Item>, timedOut: bool)
    requires OwnerInv(o, requests) && o.phase != Idle
    ensures TurnKeeps(o, requests, FrameDone(o, timedOut))
  {
    hide Sends, OwnerInv, Finish;
    FinishedKeeps(o, requests, WaitCode(timedOut), FrameDone(o, timedOut).o);
  }

  lemma DestroyDoneKeeps(o: Owner, requests: seq<Item>, timedOut: bool)
    requires OwnerInv(o, requests) && o.phase != Idle
    ensures TurnKeeps(o, requests, DestroyDone(o, timedOut))
  {
    hide Sends, OwnerInv, Finish;
    FinishedKeeps(o, requests, WaitCode(timedOut), DestroyDone(o, timedOut).o);
  }

  lemma FlushKeeps(o: Owner, requests: seq<Item>, timedOut: bool, timeout: nat, send: Code)
    requires OwnerInv(o, requests) && o.phase == Flushing
    ensures TurnKeeps(o, requests, FlushDone(o, timedOut, timeout, send))
  {
    hide Sends, DrainTurn;
    var p := o.(gate := Finish(o.gate, WaitCode(timedOut)));
    assert OwnerInv(p, requests);
    DrainTurnKeeps(p, requests, CMD_DESTROY, timeout, send);
  }

  lemma OwnerTurnKeeps(o: Owner, requests: seq<Item>, l: Label)
    requires OwnerInv(o, requests) && OwnerTurn(o, l).Some?
    ensures TurnKeeps(o, requests, OwnerTurn(o, l).value)
    ensures l.FrameEnd? && OwnerTurn(o, l).value.ret == 0 ==> o.phase == Framing && !o.gate.pending && o.gate.result == 0
  {
    hide OwnerInv, TurnKeeps, CreateTurn, ConfigTurn, FrameTurn, DrainTurn, FlushDone, DestroyDone;
    match l
    case CreateStep(m, send) => PlainTurnsKeep(o, requests, m, ZERO_CONFIG, send);
    case ConfigStep(c, send) => PlainTurnsKeep(o, requests, NO_BUFFERS, c, send);
    case FrameStep(cookie, offset, size, timeout, send) => FrameTurnKeeps(o, requests, cookie, offset, size, timeout, send);
    case DrainStep(timeout, send) => DrainTurnKeeps(o, requests, CMD_FLUSH, timeout, send);
    case FrameEnd(timedOut) => FrameDoneKeeps(o, requests, timedOut);
    case FlushEnd(timedOut, timeout, send) => FlushKeeps(o, requests, timedOut, timeout, send);
    case DestroyEnd(timedOut) => DestroyDoneKeeps(o, requests, timedOut);
    case _ =>
  }

  lemma OwnerStepKeeps(x: System, l: Label, y: System)
    requires Inv(x) && Next(x, l, y) && !l.ReplyStep? && !l.Hangup? && !l.Serve? && !l.Scribble?
    ensures Inv(y)
  {
    hide OwnerInv, Consistent, OwnerTurn, Answers, InWork, Word;
    OwnerTurnKeeps(x.owner, x.requests, l);
    var t := OwnerTurn(x.owner, l).value;
    forall i | 0 <= i < |y.replies| ensures GoodReply(y.composer, y.work, y.requests, y.replies[i]) {
      assert GoodReply(x.composer, x.work, x.requests, x.replies[i]);
      AnswersPosted(x.requests, t.sent, x.replies[i]);
    }
  }

  // ---------------------------------------------------------------- replies

  /** A truthful ACK completes exactly the pending command that it names; any other leaves the gate alone. */
  lemma ReceiveAttribution(g: GateState, s: Session, work: seq<byte>, requests: seq<Item>, a: seq<byte>)
    requires GoodReply(s, work, requests, a)
    ensures var matches := !g.closed && g.pending && a[0] == g.session && Word(a, 1) == g.cookie && a[6] == g.command;
            var h := Receive(g, Some(a));
            && (!matches ==> h == g)
            && (matches ==> !h.pending && h.reply == a && h.result == Signed(Word(a, 7))
                            && h.flushed == (g.flushed || (g.command == CMD_FLUSH && h.result == 0))
                            && h.destroyed == (g.destroyed || (g.command == CMD_DESTROY && h.result == 0))
                            && h.session == g.session && h.command == g.command && h.frameStarted == g.frameStarted
                            && h.flushStarted == g.flushStarted && h.destroyStarted == g.destroyStarted)
  {
    hide Word, Answers, InWork;
  }

  lemma ReplyStepKeeps(x: System, i: nat, y: System)
    requires Inv(x) && Next(x, ReplyStep(i), y)
    ensures Inv(y)
  {
    hide Consistent, Receive, Answers, InWork, Sends, Word;
    var a := x.replies[i];
    assert GoodReply(x.composer, x.work, x.requests, a);
    ReceiveAttribution(x.owner.gate, x.composer, x.work, x.requests, a);
    SignedZero(Word(a, 7));
    assert a in x.replies;
    forall k | 0 <= k < |y.replies| ensures GoodReply(y.composer, y.work, y.requests, y.replies[k]) {
      assert GoodReply(x.composer, x.work, x.requests, x.replies[k]);
    }
  }

  lemma SignedZero(w: u32)
    ensures Signed(w) == 0 ==> w == 0
  {}

  lemma HangupKeeps(x: System, y: System)
    requires Inv(x) && Next(x, Hangup, y)
    ensures Inv(y)
  {
    hide Consistent, GoodReply, Sends, Word;
    forall k | 0 <= k < |y.replies| ensures GoodReply(y.composer, y.work, y.requests, y.replies[k]) {
      assert GoodReply(x.composer, x.work, x.requests, x.replies[k]);
    }
  }

  lemma ScribbleKeeps(x: System, message: seq<byte>, y: System)
    requires Inv(x) && Next(x, Scribble(message), y)
    ensures Inv(y)
  {
    hide Consistent, GoodReply, OwnerInv, Word;
    forall k | 0 <= k < |y.replies| ensures GoodReply(y.composer, y.work, y.requests, y.replies[k]) {
      assert GoodReply(x.composer, x.work, x.requests, x.replies[k]);
    }
  }

  // ---------------------------------------------------------------- the worker

  /** What preparation fixed, and what messages only ever advance. */
  ghost predicate Advances(s: Session, t: Session) {
    && t.session == s.session && t.mappings == s.mappings && t.job == s.job && t.resources == s.resources
    && (s.frameStarted ==> t.frameStarted) && (s.flushed ==> t.flushed) && (s.closed ==> t.closed)
  }

  lemma LatchKeeps(s: Session, error: int)
    requires Consistent(s) && -4096 < error < 0
    ensures Consistent(Latch(s, error)) && Advances(s, Latch(s, error)) && Latch(s, error).frameStarted == s.frameStarted
    ensures Latch(s, error).flushed == s.flushed && Latch(s, error).closed == s.closed
  {
    hide InputsCode, InRange, Overlap;
  }

  /** What a worker step may do to session `s`: nothing but latch, or the dispatch of `req`. */
  ghost predicate Advanced(s: Session, message: seq<byte>, req: Item, step: Step) {
    && Consistent(step.s) && Advances(s, step.s)
    && (step.outcome.Some? ==> step.outcome.value == Dispatch(s, message, req) && Advances(step.outcome.value.s, step.s))
    && (Sent(step).Some? ==> step.outcome.Some? && step.outcome.value.ret == 1 && step.s == step.outcome.value.s
                             && Sent(step).value == step.outcome.value.reply)
  }

  lemma SettleKeeps(s: Session, message: seq<byte>, req: Item, t: Session, ret: int, io: Ioctls, events: seq<Event>, outcome: Option<Outcome>)
    requires Consistent(t) && Advances(s, t) && -4096 < ret && events != [] && !events[|events| - 1].Send?
    requires outcome.Some? ==> outcome.value == Dispatch(s, message, req) && t == outcome.value.s && (ret >= 0 ==> ret == outcome.value.ret)
    ensures Advanced(s, message, req, Settle(t, ret, io, events, outcome))
  {
    hide Dispatch, Consistent, Latch;
    if ret < 0 {
      LatchKeeps(t, ret);
    }
    if io.write < 0 {
      LatchKeeps(t, io.write);
    }
  }

  /** A worker step advances a consistent session, and dispatches at most the given request. */
  lemma WorkerKeeps(s: Session, message: seq<byte>, ccdFd: int, req: Item, io: Ioctls)
    requires Consistent(s)
    ensures Advanced(s, message, req, ComposeReply(s, message, ccdFd, req, io))
  {
    hide Dispatch, Consistent, Settle;
    DispatchKeeps(s, message, req);
    var o := Dispatch(s, message, req);
    SettleKeeps(s, message, req, o.s, o.ret, io, [Dispatched(o.composed)], Some(o));
    SettleKeeps(s, message, req, s, io.startMessage, io, [SyncStart(MessageSide, io.startMessage)], None);
    SettleKeeps(s, message, req, s, io.startWork, io,
                [SyncStart(MessageSide, 0), SyncStart(WorkSide, io.startWork), SyncEnd(MessageSide, io.endMessage)], None);
    SettleKeeps(s, message, req, o.s, Worse(Worse(o.ret, io.endWork), io.endMessage), io,
                [SyncStart(MessageSide, 0), SyncStart(WorkSide, 0), Dispatched(o.composed),
                 SyncEnd(WorkSide, io.endWork), SyncEnd(MessageSide, io.endMessage)], Some(o));
  }

  lemma HoldsStable(s: Session, t: Session, work: seq<byte>, offset: u32)
    requires Advances(s, t) && InWork(s, work, offset)
    ensures InWork(t, work, offset)
  {
    hide Decode, RecipeWrites, Composable;
    var size: u32 :| Holds(s, work, offset, size);
    assert Holds(t, work, offset, size);
  }

  /** A consumed frame is never composed again, nor is anything after FLUSH. */
  lemma ComposedOnce(s: Session, message: seq<byte>, req: Item)
    requires Dispatch(s, message, req).composed
    ensures !s.frameStarted && !s.flushed && !s.closed && Dispatch(s, message, req).s.frameStarted
  {
    hide SliceCode, InputsCode, AckBytes, Word;
  }

  /** Once the frame is consumed or the session flushed, no step changes the work buffer. */
  lemma WorkFrozen(x: System, l: Label, y: System)
    requires Inv(x) && Next(x, l, y) && (x.composer.frameStarted || x.composer.flushed)
    ensures y.work == x.work && (y.composer.frameStarted || y.composer.flushed)
    ensures Advances(x.composer, y.composer)
  {
    hide Dispatch, OwnerTurn, Receive, ComposeReply, Consistent, GoodReplies, OwnerInv, Holds;
    if l.Serve? {
      var req := x.requests[l.i];
      WorkerKeeps(x.composer, x.message, l.ccdFd, req, l.io);
      if Dispatch(x.composer, x.message, req).composed {
        ComposedOnce(x.composer, x.message, req);
      }
    }
  }

  /** The ACK of a dispatched request is truthful. */
  lemma AckTruthful(s: Session, message: seq<byte>, req: Item, before: seq<byte>, after: seq<byte>, requests: seq<Item>, i: nat)
    requires Consistent(s) && i < |requests| && requests[i] == req
    requires Dispatch(s, message, req).ret == 1 && WorkStep(before, after, Dispatch(s, message, req))
    ensures GoodReply(Dispatch(s, message, req).s, after, requests, Dispatch(s, message, req).reply)
  {
    hide InputsCode, FrameCode, AckBytes, Word, FrameAt, Holds, Signed, Unsigned, Prepared;
    CodesNotPositive(s, message, req);
    var o := Dispatch(s, message, req);
    var result := if req.command == CMD_FRAME && !o.composed then o.s.firstError else 0;
    assert o.reply == AckBytes(req, result, if o.composed then o.offset else 0, if o.composed then 720 else 0);
    AckFields(req, result, if o.composed then o.offset else 0, if o.composed then 720 else 0);
    AckResult(result);
    assert requests[i].command == o.reply[6] && requests[i].cookie == Word(o.reply, 1);
    if o.composed {
      FrameSequence(s, message, req);
      ComposedOnce(s, message, req);
      assert Holds(o.s, after, o.offset, o.size);
    }
  }

  lemma AckResult(result: int)
    requires -4096 < result <= 0
    ensures Signed(Unsigned(result)) == result && (Unsigned(result) == 0 ==> result == 0)
  {}

  lemma FrameSequence(s: Session, message: seq<byte>, req: Item)
    requires FrameCode(s, message, req) == 0
    ensures req.cookie == s.job.sequence
  {
    hide SliceCode;
  }

  lemma ServeKeeps(x: System, l: Label, y: System)
    requires Inv(x) && Next(x, l, y) && l.Serve?
    ensures Inv(y)
  {
    hide Dispatch, ComposeReply, Consistent, OwnerInv, Holds, Sent, Word, Answers, InWork, Signed;
    var req, step := x.requests[l.i], WorkerStep(x, l.i, l.ccdFd, l.io);
    WorkerKeeps(x.composer, x.message, l.ccdFd, req, l.io);
    forall k | 0 <= k < |x.replies| ensures GoodReply(y.composer, y.work, y.requests, x.replies[k]) {
      assert GoodReply(x.composer, x.work, x.requests, x.replies[k]);
      if x.composer.frameStarted {
        WorkFrozen(x, l, y);
        if InWork(x.composer, x.work, Word(x.replies[k], 59)) {
          HoldsStable(x.composer, y.composer, x.work, Word(x.replies[k], 59));
        }
      }
    }
    if Sent(step).Some? {
      AckTruthful(x.composer, x.message, req, x.work, y.work, x.requests, l.i);
    }
  }

  lemma StepKeeps(x: System, l: Label, y: System)
    requires Inv(x) && Next(x, l, y)
    ensures Inv(y)
  {
    hide Inv, Next;
    match l
    case ReplyStep(i) => ReplyStepKeeps(x, i, y);
    case Hangup => HangupKeeps(x, y);
    case Scribble(message) => ScribbleKeeps(x, message, y);
    case Serve(_, _, _) => ServeKeeps(x, l, y);
    case _ => OwnerStepKeeps(x, l, y);
  }

  // ---------------------------------------------------------------- whole runs

  lemma {:induction false} RunInv(xs: seq<System>, ls: seq<Label>, k: nat)
    requires Run(xs, ls) && k < |xs|
    ensures Inv(xs[k])
  {
    hide Inv, Next, Initial;
    if k == 0 {
      InitialInv(xs[0]);
    } else {
      RunInv(xs, ls, k - 1);
      StepKeeps(xs[k - 1], ls[k - 1], xs[k]);
    }
  }

  /** From a state whose frame is consumed or whose session is flushed on, the work buffer is constant. */
  lemma {:induction false} FrozenFrom(xs: seq<System>, ls: seq<Label>, i: nat, j: nat)
    requires Run(xs, ls) && i <= j < |xs| && (xs[i].composer.frameStarted || xs[i].composer.flushed)
    ensures xs[j].work == xs[i].work && (xs[j].composer.frameStarted || xs[j].composer.flushed)
    ensures Advances(xs[i].composer, xs[j].composer)
    decreases j - i
  {
    hide Inv, Next, Initial;
    if i < j {
      FrozenFrom(xs, ls, i, j - 1);
      RunInv(xs, ls, j - 1);
      WorkFrozen(xs[j - 1], ls[j - 1], xs[j]);
    }
  }

  /** The queue `cq` named by an ACK decodes, inside the slice of `work` at `offset`, to `writes`. */
  ghost predicate Names(work: seq<byte>, offset: u32, cq: Buffer, writes: seq<RegWrite>, size: u32) {
    offset + size <= |work| && Decode(work[offset..offset + size], cq.dma, 0, cq.size) == Some(writes)
  }

  /**
   * End to end: a reply that the kernel's frame call returned and the ACK parser accepts names
   * bytes that decode to the 59 recipe writes of the prepared job, in that state and in every later one.
   */
  lemma EndToEnd(xs: seq<System>, ls: seq<Label>, i: nat, j: nat)
    requires Run(xs, ls) && i <= j < |xs| && xs[i].delivered.Some?
    requires AckCode(xs[i].owner.session, xs[i].composer.job.sequence, xs[i].delivered.value, WorkBuffer(xs[i].composer.mappings)) == 0
    ensures var s, a := xs[i].composer, xs[i].delivered.value;
            var cq, offset := AckQueue(a, WorkBuffer(s.mappings)), Word(a, 59);
            && Composable(s.job, s.resources) && cq.size == 720 && xs[j].work == xs[i].work
            && exists size: u32 :: Names(xs[j].work, offset, cq, RecipeWrites(s.job, s.resources), size)
  {
    hide Next, Initial, Decode, RecipeWrites, Composable, Word, OwnerInv, Consistent, Answers, Signed, Advances;
    RunInv(xs, ls, i);
    var s, a := xs[i].composer, xs[i].delivered.value;
    var k :| 0 <= k < |xs[i].replies| && xs[i].replies[k] == a;
    assert GoodReply(s, xs[i].work, xs[i].requests, xs[i].replies[k]);
    var size: u32 :| Holds(s, xs[i].work, Word(a, 59), size);
    FrozenFrom(xs, ls, i, j);
    assert Names(xs[j].work, Word(a, 59), AckQueue(a, WorkBuffer(s.mappings)), RecipeWrites(s.job, s.resources), size);
  }

  lemma AckedSlice(s: Session, a: seq<byte>)
    requires Consistent(s) && AckCode(s.session, s.job.sequence, a, WorkBuffer(s.mappings)) == 0 && |a| == ACK_BYTES && Word(a, 63) == 720
    ensures Word(a, 59) + 720 <= s.mappings.work.size
    ensures AckQueue(a, WorkBuffer(s.mappings)) == Buffer(s.mappings.work.iova + Word(a, 59), 720, 1)
  {
    hide Word, InputsCode, Overlap, OtherSlotsEmpty;
  }

  lemma FramedInputs(s: Session)
    requires Consistent(s) && s.frameStarted
    ensures s.configured && InputsCode(s.job, s.config, s.resources) == 0
  {
    hide InputsCode, Overlap, InRange;
  }

  /** Executing what the hardware decodes from the slice turns `regs` into the image of the job. */
  ghost predicate Leaves(work: seq<byte>, offset: u32, cq: Buffer, size: u32, job: Job, r: Resources, regs: RegisterImage.Registers) {
    && offset + size <= |work| && Decode(work[offset..offset + size], cq.dma, 0, cq.size).Some?
    && RegisterImage.ImageOf(job, r, regs,
                             RegisterImage.Execute(Decode(work[offset..offset + size], cq.dma, 0, cq.size).value, regs))
  }

  /**
   * What the consumer may rely on: in every run an accepted reply makes the job valid for submission, and
   * whenever the hardware executes the named queue, from any register file, it leaves the image of exactly this job.
   */
  lemma CaptureReady(xs: seq<System>, ls: seq<Label>, i: nat, j: nat, banks: Banks, regs: RegisterImage.Registers)
    requires Run(xs, ls) && i <= j < |xs| && xs[i].delivered.Some? && BanksFit(banks)
    requires AckCode(xs[i].owner.session, xs[i].composer.job.sequence, xs[i].delivered.value, WorkBuffer(xs[i].composer.mappings)) == 0
    ensures var s, a := xs[i].composer, xs[i].delivered.value;
            var cq := AckQueue(a, WorkBuffer(s.mappings));
            && ValidateCode(banks, s.job.(cq := cq)) == 0
            && exists size: u32 :: Leaves(xs[j].work, Word(a, 59), cq, size, s.job, s.resources, regs)
  {
    hide Next, Initial, Decode, RecipeWrites, Composable, Word, OwnerInv, Consistent, Answers, Signed, AckCode, AckQueue, ValidateCode,
         InputsCode, WorkBuffer, BanksFit, RegisterImage.ImageOf, RegisterImage.Execute;
    EndToEnd(xs, ls, i, j);
    RunInv(xs, ls, i);
    var s, a := xs[i].composer, xs[i].delivered.value;
    var k :| 0 <= k < |xs[i].replies| && xs[i].replies[k] == a;
    assert GoodReply(s, xs[i].work, xs[i].requests, xs[i].replies[k]);
    AckedSlice(s, a);
    FramedInputs(s);
    ComposedJobValidates(s, banks, Word(a, 59));
    RegisterImage.RecipeImage(s.job, s.config, s.resources, regs);
    var cq := AckQueue(a, WorkBuffer(s.mappings));
    var size: u32 :| Names(xs[j].work, Word(a, 59), cq, RecipeWrites(s.job, s.resources), size);
    assert Leaves(xs[j].work, Word(a, 59), cq, size, s.job, s.resources, regs);
  }

  /** Drain safety: an accepted FLUSH means the composer flushed, so the buffer is frozen; DESTROY means it closed. */
  lemma DrainSafety(xs: seq<System>, ls: seq<Label>, i: nat, j: nat)
    requires Run(xs, ls) && i <= j < |xs|
    ensures xs[i].owner.gate.flushed ==> xs[i].composer.flushed && xs[j].composer.flushed && xs[j].work == xs[i].work
    ensures xs[i].owner.gate.flushed ==> forall r :: 0 <= r < |xs[j].requests| ==> !Dispatch(xs[j].composer, xs[j].message, xs[j].requests[r]).composed
    ensures xs[i].owner.gate.destroyed ==> xs[i].composer.closed
  {
    hide Next, Initial, OwnerInv, Consistent, GoodReplies, FrameSuccess, Dispatch;
    RunInv(xs, ls, i);
    if xs[i].owner.gate.flushed {
      FrozenFrom(xs, ls, i, j);
      forall r | 0 <= r < |xs[j].requests| ensures !Dispatch(xs[j].composer, xs[j].message, xs[j].requests[r]).composed {
        if Dispatch(xs[j].composer, xs[j].message, xs[j].requests[r]).composed {
          ComposedOnce(xs[j].composer, xs[j].message, xs[j].requests[r]);
        }
      }
    }
  }

  /**
   * A drain that returns success is complete: the call ends only after FLUSH and DESTROY were both sent and
   * accepted, the composer is closed, and the owner forgets the session.
   */
  lemma DrainComplete(xs: seq<System>, ls: seq<Label>, i: nat)
    requires Run(xs, ls) && i < |ls| && (ls[i].FlushEnd? || ls[i].DestroyEnd?) && OwnerTurn(xs[i].owner, ls[i]).Some?
    requires OwnerTurn(xs[i].owner, ls[i]).value.ret == 0 && xs[i + 1].owner.phase == Idle
    ensures var x := xs[i + 1];
            && x.owner.gate.flushed && x.owner.gate.destroyed && x.composer.flushed && x.composer.closed
            && !x.owner.created && !x.owner.configured
            && Sends(x.requests, CMD_FLUSH) == 1 && Sends(x.requests, CMD_DESTROY) == 1
  {
    hide Initial, Next, Inv, OwnerTurn, Consistent, Sends;
    RunInv(xs, ls, i);
    RunInv(xs, ls, i + 1);
    assert Next(xs[i], ls[i], xs[i + 1]);
    DrainStepEnds(xs[i], ls[i], xs[i + 1]);
  }

  lemma DrainStepEnds(x: System, l: Label, y: System)
    requires Inv(x) && Inv(y) && Next(x, l, y) && (l.FlushEnd? || l.DestroyEnd?) && OwnerTurn(x.owner, l).Some?
    requires OwnerTurn(x.owner, l).value.ret == 0 && y.owner.phase == Idle
    ensures y.owner.gate.flushed && y.owner.gate.destroyed && y.composer.flushed && y.composer.closed
    ensures !y.owner.created && !y.owner.configured && Sends(y.requests, CMD_FLUSH) == 1 && Sends(y.requests, CMD_DESTROY) == 1
  {
    hide Consistent, GoodReplies, FrameSuccess, Sends, FlushDone, DestroyDone;
    if l.FlushEnd? {
      FlushGoesOn(x.owner, l.timedOut, l.timeout, l.send);
      assert false;
    } else {
      DestroyEnds(x.owner, l.timedOut);
      ClosedFlushed(y.composer);
    }
  }

  /** A FLUSH that succeeded never ends the drain with success: DESTROY is sent next. */
  lemma FlushGoesOn(o: Owner, timedOut: bool, timeout: nat, send: Code)
    ensures var turn := FlushDone(o, timedOut, timeout, send);
            turn.ret == 0 ==> turn.o.phase == Destroying && turn.sent.Some? && turn.sent.value.command == CMD_DESTROY
  {
    hide ExchangeGate, ExchangeCode;
  }

  lemma DestroyEnds(o: Owner, timedOut: bool)
    requires DestroyDone(o, timedOut).ret == 0
    ensures var turn := DestroyDone(o, timedOut);
            && !timedOut && o.gate.result == 0 && !turn.o.created && !turn.o.configured && turn.sent.None?
            && turn.o.gate.destroyed == o.gate.destroyed && turn.o.gate.flushed == o.gate.flushed
  {}

  lemma ClosedFlushed(s: Session)
    requires Consistent(s)
    ensures s.closed ==> s.flushed
  {
    hide InputsCode, InRange, Overlap;
  }

  /** Over a whole run the kernel sends FRAME, FLUSH and DESTROY at most once each, DESTROY only after an accepted FLUSH. */
  lemma CommandsOnce(xs: seq<System>, ls: seq<Label>, i: nat)
    requires Run(xs, ls) && i < |xs|
    ensures Sends(xs[i].requests, CMD_FRAME) <= 1 && Sends(xs[i].requests, CMD_FLUSH) <= 1 && Sends(xs[i].requests, CMD_DESTROY) <= 1
    ensures Sends(xs[i].requests, CMD_DESTROY) == 1 ==> xs[i].owner.gate.flushed && xs[i].composer.flushed
  {
    hide Next, Initial, Consistent, GoodReplies, FrameSuccess, Sends;
    RunInv(xs, ls, i);
  }

  /** A delivered ACK either answers exactly the pending command, which was really sent, or changes nothing. */
  lemma Attribution(xs: seq<System>, ls: seq<Label>, i: nat)
    requires Run(xs, ls) && i < |ls| && ls[i].ReplyStep?
    ensures ls[i].i < |xs[i].replies| && |xs[i].replies[ls[i].i]| == ACK_BYTES
    ensures var g, h, a := xs[i].owner.gate, xs[i + 1].owner.gate, xs[i].replies[ls[i].i];
            if !g.closed && g.pending && a[6] == g.command && Word(a, 1) == g.cookie
            then !h.pending && h.reply == a && h.result == Signed(Word(a, 7)) && Answers(xs[i].requests, a)
            else xs[i + 1] == xs[i]
  {
    hide Initial, Consistent, OwnerInv, Receive, Answers, InWork, Word, Signed;
    RunInv(xs, ls, i);
    assert Next(xs[i], ls[i], xs[i + 1]);
    var a := xs[i].replies[ls[i].i];
    assert GoodReply(xs[i].composer, xs[i].work, xs[i].requests, a);
    OwnerSession(xs[i]);
    ReceiveAttribution(xs[i].owner.gate, xs[i].composer, xs[i].work, xs[i].requests, a);
  }

  lemma OwnerSession(x: System)
    requires Inv(x)
    ensures x.owner.gate.session == x.composer.session
  {
    hide Sends, GoodReplies, Consistent;
  }
}
