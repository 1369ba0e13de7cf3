/**
 * The kernel's transport owner.  Its mutex is held across an exchange, which other
 * steps (a reply, a hangup) may interleave; `phase` says which exchange is waiting.
 */
module CcdOwner {
  import opened Errno
  import opened Words
  import opened Composer
  import opened Recipe
  import opened Gate

  const EVENT_BYTES := 562

  datatype Phase = Idle | Framing | Flushing | Destroying

  datatype Owner = Owner(
    session: u32, created: bool, configured: bool, frameSent: bool, messageSize: u32, queueSize: u32,
    firstError: int, gate: GateState, phase: Phase)

  const NO_BUFFERS := Mappings(IpiBuffer(0, 0, 0), IpiBuffer(0, 0, 0))

  /** What one owner step did: its result and the envelope it queued, if any. */
  datatype Turn = Turn(o: Owner, ret: int, sent: Option<Item>)

  function FreshOwner(session: u32): Owner {
    Owner(session, false, false, false, 0, 0, if session > 3 then EINVAL else 0, FreshGate(session), Idle)
  }

  function LatchOwner(o: Owner, error: int): Owner {
    if error != 0 && o.firstError == 0 then o.(firstError := error) else o
  }

  function Event(session: u32, cookie: u32, command: byte, m: Mappings, c: Config, offset: u32, size: u32): Item {
    Item((session + IPI_ISP_MAIN) % 0x1_0000_0000, (session + IPI_ISP_MAIN) % 0x1_0000_0000, EVENT_BYTES,
         session % 0x100, cookie, command, m, c, offset, size)
  }

  /** Enqueueing fails on a closed gate; otherwise the transport decides. */
  function SendCode(g: GateState, send: Code): int {
    if g.closed then ENOTCONN else send
  }

  function CreateTurn(o: Owner, m: Mappings, send: Code): Turn {
    if m.work.size == 0 || m.message.size < FRAME_BYTES || m.work.fd > 0x7fff_ffff || m.message.fd > 0x7fff_ffff then
      Turn(o, EINVAL, None)
    else
      var ret := if o.firstError != 0 then o.firstError else if o.created || o.frameSent then EALREADY
                 else SendCode(o.gate, send);
      if ret != 0 then Turn(LatchOwner(o, ret), ret, None)
      else Turn(o.(created := true, messageSize := m.message.size, queueSize := m.work.size), 0,
                Some(Event(o.session, 0, CMD_CREATE, m.(message := m.message.(iova := 0)), ZERO_CONFIG, 0, 0)))
  }

  function ConfigTurn(o: Owner, c: Config, send: Code): Turn {
    var ret := if o.firstError != 0 then o.firstError else if !o.created || o.configured then EINVAL
               else SendCode(o.gate, send);
    if ret != 0 then Turn(LatchOwner(o, ret), ret, None)
    else Turn(o.(configured := true), 0, Some(Event(o.session, 0, CMD_CONFIG, NO_BUFFERS, c, 0, 0)))
  }

  // ---------------------------------------------------------------- exchanges

  function ExchangeCode(g: GateState, command: byte, cookie: u32, timeout: nat, send: Code): int {
    if timeout == 0 || timeout > 5000 then EINVAL
    else if BeginCode(g, command, cookie) != 0 then BeginCode(g, command, cookie)
    else SendCode(g, send)
  }

  /** The gate after starting an exchange: untouched, consumed by a failed send, or waiting. */
  function ExchangeGate(g: GateState, command: byte, cookie: u32, timeout: nat, send: Code): GateState {
    if timeout == 0 || timeout > 5000 || BeginCode(g, command, cookie) != 0 then g
    else if SendCode(g, send) != 0 then Finish(Begin(g, command, cookie), SendCode(g, send))
    else Begin(g, command, cookie)
  }

  function FrameTurn(o: Owner, cookie: u32, offset: u32, size: u32, timeout: nat, send: Code): Turn {
    if !CookieValid(o.session, cookie) then Turn(o, EINVAL, None)
    else if o.firstError != 0 then Turn(o, o.firstError, None)
    else if !o.configured || o.frameSent || size < FRAME_BYTES || offset > o.messageSize || size > o.messageSize - offset then
      Turn(LatchOwner(o, EINVAL), EINVAL, None)
    else
      var ret := ExchangeCode(o.gate, CMD_FRAME, cookie, timeout, send);
      var p := o.(frameSent := true, gate := ExchangeGate(o.gate, CMD_FRAME, cookie, timeout, send));
      if ret != 0 then Turn(LatchOwner(p, ret), ret, None)
      else Turn(p.(phase := Framing), 0, Some(Event(o.session, cookie, CMD_FRAME, NO_BUFFERS, ZERO_CONFIG, offset, size)))
  }

  /** A waiter that did not time out was woken by a reply or a hangup. */
  predicate MayFinish(o: Owner, timedOut: bool) {
    timedOut || !o.gate.pending
  }

  function WaitCode(timedOut: bool): int {
    if timedOut then ETIMEDOUT else 0
  }

  /** Success hands out the gate's stored reply. */
  function FrameDone(o: Owner, timedOut: bool): Turn {
    var g := Finish(o.gate, WaitCode(timedOut));
    Turn(LatchOwner(o.(gate := g, phase := Idle), g.result), g.result, None)
  }

  /** Starts FLUSH or DESTROY; a failure ends the drain. */
  function DrainTurn(o: Owner, command: byte, timeout: nat, send: Code): Turn
    requires command == CMD_FLUSH || command == CMD_DESTROY
  {
    var ret := ExchangeCode(o.gate, command, 0, timeout, send);
    var p := o.(gate := ExchangeGate(o.gate, command, 0, timeout, send));
    if ret != 0 then Turn(LatchOwner(p.(phase := Idle), ret), LatchOwner(p, ret).firstError, None)
    else Turn(p.(phase := if command == CMD_FLUSH then Flushing else Destroying), 0,
              Some(Event(o.session, 0, command, NO_BUFFERS, ZERO_CONFIG, 0, 0)))
  }

  /** After FLUSH: on success go on to DESTROY at once, otherwise stop. */
  function FlushDone(o: Owner, timedOut: bool, timeout: nat, send: Code): Turn {
    var g := Finish(o.gate, WaitCode(timedOut));
    var p := o.(gate := g);
    if g.result != 0 then Turn(LatchOwner(p.(phase := Idle), g.result), LatchOwner(p, g.result).firstError, None)
    else DrainTurn(p, CMD_DESTROY, timeout, send)
  }

  function DestroyDone(o: Owner, timedOut: bool): Turn {
    var g := Finish(o.gate, WaitCode(timedOut));
    var p := o.(gate := g, phase := Idle);
    var q := if g.result == 0 then p.(created := false, configured := false) else LatchOwner(p, g.result);
    Turn(q, q.firstError, None)
  }

  // ---------------------------------------------------------------- the owner object

  class TransportOwner {
    const session: u32
    const gate: ReplyGate
    var created: bool
    var configured: bool
    var frameSent: bool
    var messageSize: u32
    var queueSize: u32
    var firstError: int
    var phase: Phase

    function State(): Owner
      reads this, gate
    {
      Owner(session, created, configured, frameSent, messageSize, queueSize, firstError, gate.State(), phase)
    }

    constructor (session: u32)
      ensures State() == FreshOwner(session) && fresh(gate)
    {
      this.session := session;
      gate := new ReplyGate(session);
      created, configured, frameSent, messageSize, queueSize := false, false, false, 0, 0;
      firstError := if session > 3 then EINVAL else 0;
      phase := Idle;
    }

    method Fail(error: int)
      modifies this`firstError
      ensures State() == LatchOwner(old(State()), error)
    {
      if error != 0 && firstError == 0 {
        firstError := error;
      }
    }

    method Create(m: Mappings, send: Code) returns (ret: int, sent: Option<Item>)
      modifies this
      ensures Turn(State(), ret, sent) == CreateTurn(old(State()), m, send)
    {
      if m.work.size == 0 || m.message.size < FRAME_BYTES || m.work.fd > 0x7fff_ffff || m.message.fd > 0x7fff_ffff {
        return EINVAL, None;
      }
      ret, sent := firstError, None;
      if ret == 0 && (created || frameSent) {
        ret := EALREADY;
      }
      if ret == 0 {
        ret := SendCode(gate.State(), send);
        if ret == 0 {
          sent := Some(Event(session, 0, CMD_CREATE, m.(message := m.message.(iova := 0)), ZERO_CONFIG, 0, 0));
          created, messageSize, queueSize := true, m.message.size, m.work.size;
        }
      }
      Fail(ret);
    }

    method Configure(c: Config, send: Code) returns (ret: int, sent: Option<Item>)
      modifies this
      ensures Turn(State(), ret, sent) == ConfigTurn(old(State()), c, send)
    {
      ret, sent := firstError, None;
      if ret == 0 && (!created || configured) {
        ret := EINVAL;
      }
      if ret == 0 {
        ret := SendCode(gate.State(), send);
        if ret == 0 {
          sent := Some(Event(session, 0, CMD_CONFIG, NO_BUFFERS, c, 0, 0));
          configured := true;
        }
      }
      Fail(ret);
    }

    /** Begin, send, and on a failed send consume the command at once. */
    method Exchange(command: byte, cookie: u32, timeout: nat, send: Code) returns (ret: int)
      modifies gate
      ensures ret == ExchangeCode(old(gate.State()), command, cookie, timeout, send)
      ensures gate.State() == ExchangeGate(old(gate.State()), command, cookie, timeout, send)
    {
      if timeout == 0 || timeout > 5000 {
        return EINVAL;
      }
      ret := gate.Start(command, cookie);
      if ret != 0 {
        return;
      }
      ret := SendCode(gate.State(), send);
      if ret != 0 {
        ret := gate.End(ret);
      }
    }

    method FrameStart(cookie: u32, offset: u32, size: u32, timeout: nat, send: Code) returns (ret: int, sent: Option<Item>)
      modifies this, gate
      ensures Turn(State(), ret, sent) == FrameTurn(old(State()), cookie, offset, size, timeout, send)
    {
      hide BeginCode, Begin, Finish;
      sent := None;
      if !CookieValid(session, cookie) {
        return EINVAL, None;
      }
      ret := firstError;
      if ret == 0 && (!configured || frameSent || size < FRAME_BYTES || offset > messageSize || size > messageSize - offset) {
        ret := EINVAL;
      }
      if ret == 0 {
        frameSent := true;
        ret := Exchange(CMD_FRAME, cookie, timeout, send);
        if ret == 0 {
          sent := Some(Event(session, cookie, CMD_FRAME, NO_BUFFERS, ZERO_CONFIG, offset, size));
          phase := Framing;
        }
      }
      Fail(ret);
    }

    method FrameFinish(timedOut: bool) returns (ret: int, reply: seq<byte>)
      modifies this, gate
      ensures State() == FrameDone(old(State()), timedOut).o && ret == FrameDone(old(State()), timedOut).ret
      ensures ret == 0 ==> reply == old(gate.reply)
    {
      ret := gate.End(WaitCode(timedOut));
      reply := gate.reply;
      phase := Idle;
      Fail(ret);
    }

    method DrainStart(command: byte, timeout: nat, send: Code) returns (ret: int, sent: Option<Item>)
      requires command == CMD_FLUSH || command == CMD_DESTROY
      modifies this, gate
      ensures Turn(State(), ret, sent) == DrainTurn(old(State()), command, timeout, send)
    {
      hide BeginCode, Begin, Finish;
      sent := None;
      ret := Exchange(command, 0, timeout, send);
      if ret != 0 {
        phase := Idle;
        Fail(ret);
        ret := firstError;
        return;
      }
      phase := if command == CMD_FLUSH then Flushing else Destroying;
      sent := Some(Event(session, 0, command, NO_BUFFERS, ZERO_CONFIG, 0, 0));
    }

    method FlushFinish(timedOut: bool, timeout: nat, send: Code) returns (ret: int, sent: Option<Item>)
      modifies this, gate
      ensures Turn(State(), ret, sent) == FlushDone(old(State()), timedOut, timeout, send)
    {
      sent := None;
      ret := gate.End(WaitCode(timedOut));
      if ret != 0 {
        phase := Idle;
        Fail(ret);
        ret := firstError;
        return;
      }
      ret, sent := DrainStart(CMD_DESTROY, timeout, send);
    }

    method DestroyFinish(timedOut: bool) returns (ret: int)
      modifies this, gate
      ensures State() == DestroyDone(old(State()), timedOut).o && ret == DestroyDone(old(State()), timedOut).ret
    {
      ret := gate.End(WaitCode(timedOut));
      phase := Idle;
      if ret == 0 {
        created, configured := false, false;
      }
      Fail(ret);
      ret := firstError;
    }
  }
}
