/**
 * What the kernel ever asks of the composer: over every run the requests are CREATE, CONFIG, FRAME, FLUSH and
 * DESTROY, in that order, each at most once, and each inside what the earlier ones established.
 */
module OwnerHistory {
  import opened Errno
  import opened Words
  import opened Composer
  import opened Recipe
  import opened Gate
  import opened CcdOwner
  import opened Protocol

  /** What the requests so far have established. */
  datatype Asked = Asked(create: Option<Item>, configured: bool, framed: bool, flushed: bool, destroyed: bool)

  const START := Asked(None, false, false, false, false)

  /** The order of requests; a FRAME names a frame inside the message buffer that CREATE announced.  None if broken. */
  function Ask(s: Asked, req: Item): Option<Asked> {
    if req.command == 0 then
      if s != START || req.mappings.message.iova != 0 then None else Some(s.(create := Some(req)))
    else if s.create.None? then None
    else if req.command == 1 then
      if s.configured || s.flushed then None else Some(s.(configured := true))
    else if req.command == 2 then
      if !s.configured || s.framed || s.flushed || req.size < 92291 || req.offset + req.size > s.create.value.mappings.message.size
         || req.cookie / 0x100_0000 != req.session then None
      else Some(s.(framed := true))
    else if req.command == 5 then
      if s.flushed || req.cookie != 0 then None else Some(s.(flushed := true))
    else if req.command == 3 then
      if !s.flushed || s.destroyed || req.cookie != 0 then None else Some(s.(destroyed := true))
    else None
  }

  function AskAll(requests: seq<Item>): Option<Asked> {
    if requests == [] then Some(START)
    else
      match AskAll(requests[..|requests| - 1])
      case None => None
      case Some(s) => Ask(s, requests[|requests| - 1])
  }

  lemma AskSnoc(requests: seq<Item>, req: Item)
    requires AskAll(requests).Some?
    ensures AskAll(requests + [req]) == Ask(AskAll(requests).value, req)
  {
    hide Ask;
    assert (requests + [req])[..|requests|] == requests;
  }

  /** The owner knows what it asked for. */
  ghost predicate Knows(o: Owner, s: Asked) {
    && o.session == o.gate.session <= 3 && (s.create.None? ==> s == START)
    && (o.created ==> s.create.Some? && o.messageSize == s.create.value.mappings.message.size)
    && (s.create.Some? && !o.created ==> o.gate.closed)
    && (o.configured ==> o.created) && (s.configured ==> o.configured || o.gate.closed) && (o.configured ==> s.configured)
    && (s.framed ==> o.frameSent) && (s.flushed ==> o.gate.flushStarted) && (s.destroyed ==> o.gate.destroyStarted)
    && (o.phase == Flushing || o.phase == Destroying ==> s.create.Some? && s.flushed)
    && (o.gate.flushStarted && o.phase == Idle ==> o.firstError != 0 || o.gate.closed)
    && (o.gate.flushStarted && o.phase == Framing ==> false)
    && (o.gate.destroyed ==> o.gate.closed)
  }

  ghost predicate Orderly(o: Owner, requests: seq<Item>) {
    AskAll(requests).Some? && Knows(o, AskAll(requests).value)
  }

  ghost predicate TurnOrderly(requests: seq<Item>, t: Turn) {
    Orderly(t.o, Posted(requests, t.sent))
  }

  // ---------------------------------------------------------------- every turn

  /** A turn that asks for nothing, or for one thing in order. */
  lemma TurnAsks(requests: seq<Item>, s: Asked, t: Turn)
    requires AskAll(requests) == Some(s)
    requires if t.sent.None? then Knows(t.o, s) else Ask(s, t.sent.value).Some? && Knows(t.o, Ask(s, t.sent.value).value)
    ensures TurnOrderly(requests, t)
  {
    hide AskAll, Ask, Knows;
    if t.sent.Some? {
      AskSnoc(requests, t.sent.value);
    }
  }

  /** What a turn did fits what was asked before. */
  ghost predicate Fits(s: Asked, t: Turn) {
    if t.sent.None? then Knows(t.o, s) else Ask(s, t.sent.value).Some? && Knows(t.o, Ask(s, t.sent.value).value)
  }

  lemma CreateFits(o: Owner, s: Asked, m: Mappings, send: Code)
    requires Knows(o, s) && o.phase == Idle
    ensures Fits(s, CreateTurn(o, m, send))
  {}

  lemma ConfigFits(o: Owner, s: Asked, c: Config, send: Code)
    requires Knows(o, s) && o.phase == Idle
    ensures Fits(s, ConfigTurn(o, c, send))
  {}

  lemma LatchKnows(o: Owner, s: Asked, error: int)
    requires Knows(o, s)
    ensures Knows(LatchOwner(o, error), s)
  {}

  lemma FrameFits(o: Owner, s: Asked, cookie: u32, offset: u32, size: u32, timeout: nat, send: Code)
    requires Knows(o, s) && o.phase == Idle
    ensures Fits(s, FrameTurn(o, cookie, offset, size, timeout, send))
  {
    hide LatchOwner, ExchangeGate, ExchangeCode;
    var p := o.(frameSent := true, gate := ExchangeGate(o.gate, CMD_FRAME, cookie, timeout, send));
    FrameGate(o.gate, cookie, timeout, send);
    LatchKnows(o, s, EINVAL);
    if ExchangeCode(o.gate, CMD_FRAME, cookie, timeout, send) != 0 {
      LatchKnows(p, s, ExchangeCode(o.gate, CMD_FRAME, cookie, timeout, send));
    }
  }

  lemma FrameGate(g: GateState, cookie: u32, timeout: nat, send: Code)
    ensures var h := ExchangeGate(g, CMD_FRAME, cookie, timeout, send);
            && h.session == g.session && h.closed == g.closed && h.flushStarted == g.flushStarted && h.destroyStarted == g.destroyStarted
            && h.destroyed == g.destroyed
            && (ExchangeCode(g, CMD_FRAME, cookie, timeout, send) == 0 ==> !g.flushStarted && !g.closed)
  {}

  lemma DrainGate(g: GateState, command: byte, timeout: nat, send: Code)
    requires command == CMD_FLUSH || command == CMD_DESTROY
    ensures var h := ExchangeGate(g, command, 0, timeout, send);
            && h.session == g.session && h.closed == g.closed && h.destroyed == g.destroyed
            && (g.flushStarted ==> h.flushStarted) && (g.destroyStarted ==> h.destroyStarted)
            && (ExchangeCode(g, command, 0, timeout, send) == 0 ==>
                  if command == CMD_FLUSH then !g.flushStarted && h.flushStarted else !g.destroyStarted && h.destroyStarted)
  {}

  /** FLUSH from an idle owner with a session, or DESTROY after FLUSH. */
  lemma DrainFits(o: Owner, s: Asked, command: byte, timeout: nat, send: Code)
    requires Knows(o, s)
    requires (command == CMD_FLUSH && o.phase == Idle && o.created) || (command == CMD_DESTROY && o.phase == Flushing)
    ensures Fits(s, DrainTurn(o, command, timeout, send))
  {
    hide ExchangeGate, ExchangeCode;
    DrainGate(o.gate, command, timeout, send);
  }

  lemma FrameDoneFits(o: Owner, s: Asked, timedOut: bool)
    requires Knows(o, s) && o.phase == Framing
    ensures Fits(s, FrameDone(o, timedOut))
  {}

  lemma FlushDoneFits(o: Owner, s: Asked, timedOut: bool, timeout: nat, send: Code)
    requires Knows(o, s) && o.phase == Flushing
    ensures Fits(s, FlushDone(o, timedOut, timeout, send))
  {
    hide DrainTurn, Ask;
    var p := o.(gate := Finish(o.gate, WaitCode(timedOut)));
    assert Knows(p, s);
    DrainFits(p, s, CMD_DESTROY, timeout, send);
  }

  lemma DestroyDoneFits(o: Owner, s: Asked, timedOut: bool)
    requires Knows(o, s) && o.phase == Destroying
    requires !timedOut && o.gate.result == 0 ==> o.gate.destroyed
    ensures Fits(s, DestroyDone(o, timedOut))
  {}

  lemma TurnFits(o: Owner, s: Asked, l: Label)
    requires Knows(o, s) && OwnerTurn(o, l).Some?
    requires o.phase == Destroying && !o.gate.pending && o.gate.result == 0 ==> o.gate.destroyed
    ensures Fits(s, OwnerTurn(o, l).value)
  {
    hide Fits, CreateTurn, ConfigTurn, FrameTurn, DrainTurn, FrameDone, FlushDone, DestroyDone;
    match l
    case CreateStep(m, send) => CreateFits(o, s, m, send);
    case ConfigStep(c, send) => ConfigFits(o, s, c, send);
    case FrameStep(cookie, offset, size, timeout, send) => FrameFits(o, s, cookie, offset, size, timeout, send);
    case DrainStep(timeout, send) => DrainFits(o, s, CMD_FLUSH, timeout, send);
    case FrameEnd(timedOut) => FrameDoneFits(o, s, timedOut);
    case FlushEnd(timedOut, timeout, send) => FlushDoneFits(o, s, timedOut, timeout, send);
    case DestroyEnd(timedOut) => DestroyDoneFits(o, s, timedOut);
    case _ =>
  }

  // ---------------------------------------------------------------- every run

  lemma ReplyKnows(o: Owner, s: Asked, message: Option<seq<byte>>)
    requires Knows(o, s)
    ensures Knows(o.(gate := Receive(o.gate, message)), s)
  {
    hide Word, HeaderCode;
  }

  lemma StepOrderly(x: System, l: Label, y: System)
    requires Inv(x) && Next(x, l, y) && Orderly(x.owner, x.requests)
    ensures Orderly(y.owner, y.requests)
  {
    hide Knows, AskAll, OwnerTurn, OwnerInv, Consistent, GoodReplies, FrameSuccess, Receive, WorkStep, Fits;
    var s := AskAll(x.requests).value;
    match l
    case ReplyStep(i) => ReplyKnows(x.owner, s, Some(x.replies[i]));
    case Hangup => ReplyKnows(x.owner, s, None);
    case Serve(_, _, _) =>
    case Scribble(_) =>
    case _ =>
      TurnFits(x.owner, s, l);
      FitsOrderly(x.requests, s, OwnerTurn(x.owner, l).value);
  }

  lemma FitsOrderly(requests: seq<Item>, s: Asked, t: Turn)
    requires AskAll(requests) == Some(s) && Fits(s, t)
    ensures Orderly(t.o, Posted(requests, t.sent))
  {
    hide AskAll, Ask, Knows;
    TurnAsks(requests, s, t);
  }

  lemma {:induction false} RunOrderly(xs: seq<System>, ls: seq<Label>, k: nat)
    requires Run(xs, ls) && k < |xs|
    ensures Orderly(xs[k].owner, xs[k].requests)
  {
    hide Inv, Next, Knows;
    if k == 0 {
      FreshKnows(xs[0].owner);
    } else {
      RunOrderly(xs, ls, k - 1);
      RunInv(xs, ls, k - 1);
      StepOrderly(xs[k - 1], ls[k - 1], xs[k]);
    }
  }

  lemma FreshKnows(o: Owner)
    requires o == FreshOwner(o.session) && o.session <= 3
    ensures Knows(o, START)
  {}

  /** In every run the requests obey their order, and the frame that was asked for lies in the announced message buffer. */
  lemma RequestsOrdered(xs: seq<System>, ls: seq<Label>, k: nat)
    requires Run(xs, ls) && k < |xs|
    ensures AskAll(xs[k].requests).Some?
  {
    hide AskAll, Knows, Run;
    RunOrderly(xs, ls, k);
  }

  // ---------------------------------------------------------------- the first error

  lemma TurnKeepsError(o: Owner, l: Label)
    requires OwnerTurn(o, l).Some? && o.firstError != 0
    ensures OwnerTurn(o, l).value.o.firstError == o.firstError
    ensures (l.DestroyEnd? || (l.FlushEnd? && OwnerTurn(o, l).value.o.phase == Idle)) ==> OwnerTurn(o, l).value.ret == o.firstError
  {
    hide ExchangeGate, ExchangeCode, CookieValid, Finish;
  }

  /** The first error of an owner is never replaced, and a drain that ends reports it. */
  lemma {:induction false} FirstErrorStays(xs: seq<System>, ls: seq<Label>, i: nat, j: nat)
    requires Run(xs, ls) && i <= j < |xs| && xs[i].owner.firstError != 0
    ensures xs[j].owner.firstError == xs[i].owner.firstError
    decreases j - i
  {
    hide OwnerTurn, Initial, Receive, WorkStep;
    if i < j {
      FirstErrorStays(xs, ls, i, j - 1);
      assert Next(xs[j - 1], ls[j - 1], xs[j]);
      if OwnerTurn(xs[j - 1].owner, ls[j - 1]).Some? {
        TurnKeepsError(xs[j - 1].owner, ls[j - 1]);
      }
    }
  }
}
