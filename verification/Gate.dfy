/**
 * The kernel's side of the composer transport: the one-shot reply gate and the
 * parser that turns an accepted FRAME reply into a command-queue buffer.
 */
module Gate {
  import opened Errno
  import opened Words
  import opened Capture
  import opened Composer
  import opened Recipe
  import opened CommandQueue

  datatype GateState = GateState(
    session: u32, pending: bool, closed: bool, command: u32, cookie: u32,
    frameStarted: bool, flushStarted: bool, flushed: bool, destroyStarted: bool, destroyed: bool,
    result: int, reply: seq<byte>)

  function FreshGate(session: u32): GateState {
    GateState(session, false, false, 0, 0, false, false, false, false, false, 0, Zeros(ACK_BYTES))
  }

  /** Context in bits 24..31, frame sequence below. */
  predicate CookieValid(session: u32, cookie: u32) {
    session <= 3 && cookie / 0x100_0000 == session
  }

  /** A word read as a C int. */
  function Signed(w: u32): int {
    if w < 0x8000_0000 then w else w - 0x1_0000_0000
  }

  function HeaderCode(message: seq<byte>, session: u32, cookie: u32, command: u32): int {
    if |message| < ACK_BYTES then EMSGSIZE
    else if message[0] != session || Word(message, 1) != cookie then ESTALE
    else if message[5] != CMD_ACK then EPROTO
    else if message[6] != command then ESTALE
    else if Signed(Word(message, 7)) > 0 then EPROTO
    else Signed(Word(message, 7))
  }

  // ---------------------------------------------------------------- the gate's three operations

  function BeginCode(g: GateState, command: u32, cookie: u32): int {
    if g.session > 3 then EINVAL
    else if g.closed then ENOTCONN
    else if g.pending then EBUSY
    else if command == CMD_FRAME then
      if !CookieValid(g.session, cookie) then EINVAL
      else if g.frameStarted || g.flushStarted then EALREADY else 0
    else if command == CMD_FLUSH then
      if cookie != 0 || g.flushStarted then EALREADY else 0
    else if command == CMD_DESTROY then
      if cookie != 0 || !g.flushed || g.destroyStarted then EINVAL else 0
    else EOPNOTSUPP
  }

  function Begin(g: GateState, command: u32, cookie: u32): GateState {
    if BeginCode(g, command, cookie) != 0 then g
    else g.(pending := true, command := command, cookie := cookie, result := 0,
            frameStarted := g.frameStarted || command == CMD_FRAME,
            flushStarted := g.flushStarted || command == CMD_FLUSH,
            destroyStarted := g.destroyStarted || command == CMD_DESTROY)
  }

  /** 1 for a matching successful reply; None is the endpoint's destruction. */
  function ReceiveCode(g: GateState, message: Option<seq<byte>>): int {
    if message.None? || g.closed then ENOTCONN
    else if !g.pending then ESTALE
    else if |message.value| < 5 then EMSGSIZE
    else if message.value[0] != g.session || Word(message.value, 1) != g.cookie then ESTALE
    else
      var code := HeaderCode(message.value, g.session, g.cookie, g.command);
      if code == 0 then 1 else code
  }

  /** The reply concerns the pending command, successfully or not. */
  predicate Consumes(g: GateState, message: seq<byte>) {
    !g.closed && g.pending && |message| >= 5 && ReceiveCode(g, Some(message)) != ESTALE
  }

  function Receive(g: GateState, message: Option<seq<byte>>): GateState {
    if message.None? then g.(closed := true, result := ENOTCONN, pending := false)
    else if !Consumes(g, message.value) then g
    else
      var ok := ReceiveCode(g, message) == 1;
      g.(pending := false, result := if ok then 0 else ReceiveCode(g, message),
         reply := if |message.value| >= ACK_BYTES then message.value[..ACK_BYTES] else g.reply,
         flushed := g.flushed || (ok && g.command == CMD_FLUSH),
         destroyed := g.destroyed || (ok && g.command == CMD_DESTROY),
         closed := ok && g.command == CMD_DESTROY)
  }

  function Finish(g: GateState, error: int): GateState {
    g.(result := if error != 0 then error else g.result, pending := false)
  }

  /** FRAME, FLUSH and DESTROY can be started exactly then. */
  lemma BeginExact(g: GateState, command: u32, cookie: u32)
    ensures BeginCode(g, command, cookie) == 0 <==>
            && g.session <= 3 && !g.closed && !g.pending
            && ((command == 2 && cookie / 0x100_0000 == g.session && !g.frameStarted && !g.flushStarted)
                || (command == 5 && cookie == 0 && !g.flushStarted)
                || (command == 3 && cookie == 0 && g.flushed && !g.destroyStarted))
  {}

  class ReplyGate {
    const session: u32
    var pending: bool
    var closed: bool
    var command: u32
    var cookie: u32
    var frameStarted: bool
    var flushStarted: bool
    var flushed: bool
    var destroyStarted: bool
    var destroyed: bool
    var result: int
    var reply: seq<byte>

    function State(): GateState
      reads this
    {
      GateState(session, pending, closed, command, cookie, frameStarted, flushStarted, flushed, destroyStarted, destroyed, result, reply)
    }

    constructor (session: u32)
      ensures State() == FreshGate(session)
    {
      this.session := session;
      pending, closed, command, cookie, result := false, false, 0, 0, 0;
      frameStarted, flushStarted, flushed, destroyStarted, destroyed := false, false, false, false, false;
      reply := Zeros(ACK_BYTES);
    }

    method Start(command: u32, cookie: u32) returns (ret: int)
      modifies this
      ensures ret == BeginCode(old(State()), command, cookie) && State() == Begin(old(State()), command, cookie)
    {
      if session > 3 {
        return EINVAL;
      }
      if closed {
        return ENOTCONN;
      }
      if pending {
        return EBUSY;
      }
      if command == CMD_FRAME {
        if !CookieValid(session, cookie) {
          return EINVAL;
        }
        if frameStarted || flushStarted {
          return EALREADY;
        }
        frameStarted := true;
      } else if command == CMD_FLUSH {
        if cookie != 0 || flushStarted {
          return EALREADY;
        }
        flushStarted := true;
      } else if command == CMD_DESTROY {
        if cookie != 0 || !flushed || destroyStarted {
          return EINVAL;
        }
        destroyStarted := true;
      } else {
        return EOPNOTSUPP;
      }
      this.command, this.cookie, result, pending := command, cookie, 0, true;
      return 0;
    }

    method Deliver(message: Option<seq<byte>>) returns (ret: int)
      modifies this
      ensures ret == ReceiveCode(old(State()), message) && State() == Receive(old(State()), message)
    {
      if message.None? {
        closed, result, pending := true, ENOTCONN, false;
        return ENOTCONN;
      }
      if closed {
        return ENOTCONN;
      }
      if !pending {
        return ESTALE;
      }
      var m := message.value;
      if |m| < 5 {
        return EMSGSIZE;
      }
      if m[0] != session || Word(m, 1) != cookie {
        return ESTALE;
      }
      ret := HeaderCode(m, session, cookie, command);
      if ret == ESTALE {
        return;
      }
      if |m| >= ACK_BYTES {
        reply := m[..ACK_BYTES];
      }
      pending := false;
      result := ret;
      if ret == 0 && command == CMD_FLUSH {
        flushed := true;
      }
      if ret == 0 && command == CMD_DESTROY {
        destroyed, closed := true, true;
      }
      ret := if ret != 0 then ret else 1;
    }

    method End(error: int) returns (ret: int)
      modifies this`result, this`pending
      ensures State() == Finish(old(State()), error) && ret == result
    {
      if error != 0 {
        result := error;
      }
      pending := false;
      return result;
    }
  }

  // ---------------------------------------------------------------- from ACK to command queue

  /** Result-table slots other than camsv[0], which is slot 6. */
  predicate OtherSlotsEmpty(message: seq<byte>) {
    forall i | 0 <= i < 8 && i != 6 :: Word(message, 11 + 8 * i) == 0 && Word(message, 15 + 8 * i) == 0
  }

  function AckCode(session: u32, cookie: u32, message: seq<byte>, workbuf: Buffer): int {
    if |message| < ACK_BYTES || session > 255 then EMSGSIZE
    else if message[0] != session || Word(message, 1) != cookie then ESTALE
    else if message[5] != CMD_ACK || message[6] != CMD_FRAME then EPROTO
    else if Word(message, 7) != 0 then if Signed(Word(message, 7)) > 0 then EPROTO else Signed(Word(message, 7))
    else if !OtherSlotsEmpty(message) then EOPNOTSUPP
    else
      var offset, size := Word(message, 59), Word(message, 63);
      if !InRange(workbuf, workbuf.size) || size == 0 || size > 0xffff || offset > workbuf.size
         || size > workbuf.size - offset then ERANGE
      else 0
  }

  function AckQueue(message: seq<byte>, workbuf: Buffer): Buffer {
    Buffer((workbuf.dma + Word(message, 59)) % 0x1_0000_0000_0000_0000, Word(message, 63), 1)
  }

  /** An acknowledgement of this frame, byte by byte: no error, nothing but the camsv[0] slot, which lies in the work buffer. */
  ghost predicate Acknowledges(session: u32, cookie: u32, message: seq<byte>, workbuf: Buffer) {
    && |message| >= 75 && message[0] == session && Word(message, 1) == cookie && message[5] == 4 && message[6] == 2
    && (forall i | 7 <= i < 75 && !(59 <= i < 67) :: message[i] == 0)
    && MappedBuffer(workbuf) && 0 < Word(message, 63) <= 0xffff && Word(message, 59) + Word(message, 63) <= workbuf.size
  }

  lemma WordZero(message: seq<byte>, at: nat)
    requires at + 4 <= |message|
    ensures Word(message, at) == 0 <==> message[at] == 0 && message[at + 1] == 0 && message[at + 2] == 0 && message[at + 3] == 0
  {}

  /** A reply header is good exactly for an ACK of this command under this cookie whose result is zero. */
  lemma HeaderExact(message: seq<byte>, session: u32, cookie: u32, command: u32)
    ensures HeaderCode(message, session, cookie, command) == 0 <==>
            && |message| >= 75 && message[0] == session && Word(message, 1) == cookie && message[5] == 4 && message[6] == command
            && message[7] == 0 && message[8] == 0 && message[9] == 0 && message[10] == 0
  {
    hide Word;
    if |message| >= 75 {
      WordZero(message, 7);
      SignedNonzero(Word(message, 7));
    }
  }

  lemma SlotsExact(message: seq<byte>)
    requires |message| >= 75
    ensures Word(message, 7) == 0 && OtherSlotsEmpty(message) <==> forall i | 7 <= i < 75 && !(59 <= i < 67) :: message[i] == 0
  {
    hide Word;
    WordZero(message, 7);
    forall k | 0 <= k < 8
      ensures Word(message, 11 + 8 * k) == 0 && Word(message, 15 + 8 * k) == 0 <==>
              forall i | 11 + 8 * k <= i < 19 + 8 * k :: message[i] == 0
    {
      WordZero(message, 11 + 8 * k);
      WordZero(message, 15 + 8 * k);
    }
    if Word(message, 7) == 0 && OtherSlotsEmpty(message) {
      forall i | 7 <= i < 75 && !(59 <= i < 67) ensures message[i] == 0 {
        if i >= 11 {
          var k := (i - 11) / 8;
          assert k != 6 && Word(message, 11 + 8 * k) == 0;
        }
      }
    }
  }

  /** The parser accepts exactly such acknowledgements. */
  lemma AckExact(session: u32, cookie: u32, message: seq<byte>, workbuf: Buffer)
    ensures AckCode(session, cookie, message, workbuf) == 0 <==> Acknowledges(session, cookie, message, workbuf)
  {
    hide Word, OtherSlotsEmpty, InRange;
    InRangeIs(workbuf, workbuf.size);
    if |message| >= 75 {
      SlotsExact(message);
      SignedNonzero(Word(message, 7));
    }
  }

  lemma SignedNonzero(w: u32)
    ensures Signed(w) == 0 <==> w == 0
  {}

  class CaptureReply {
    const session: u32
    const cookie: u32
    var accepted: bool
    var firstError: int

    constructor (session: u32, cookie: u32)
      ensures this.session == session && this.cookie == cookie && !accepted && firstError == 0
    {
      this.session, this.cookie, accepted, firstError := session, cookie, false, 0;
    }

    /** A whole reply to somebody else's session or frame. */
    predicate Foreign(message: seq<byte>) {
      |message| >= ACK_BYTES && session <= 255 && (message[0] != session || Word(message, 1) != cookie)
    }

    /** One acceptance only; stale replies do not poison the frame, other errors are latched. */
    method Accept(message: seq<byte>, workbuf: Buffer) returns (ret: int, cq: Buffer)
      modifies this`accepted, this`firstError
      ensures ret == (if old(firstError) != 0 then old(firstError) else if old(accepted) then EALREADY
                      else AckCode(session, cookie, message, workbuf))
      ensures accepted == (old(accepted) || ret == 0)
      ensures firstError == (if old(firstError) != 0 || old(accepted) || Foreign(message) then old(firstError) else ret)
      ensures ret == 0 ==> cq == AckQueue(message, workbuf)
    {
      cq := Buffer(0, 0, 0);
      if firstError != 0 {
        return firstError, cq;
      }
      if accepted {
        return EALREADY, cq;
      }
      if |message| < ACK_BYTES || session > 255 {
        firstError := EMSGSIZE;
        return EMSGSIZE, cq;
      }
      if message[0] != session || Word(message, 1) != cookie {
        return ESTALE, cq;
      }
      ret := CheckResult(message);
      if ret != 0 {
        firstError := ret;
        return;
      }
      var offset, size := Word(message, 59), Word(message, 63);
      if !InRange(workbuf, workbuf.size) || size == 0 || size > 0xffff || offset > workbuf.size || size > workbuf.size - offset {
        firstError := ERANGE;
        return ERANGE, cq;
      }
      cq := AckQueue(message, workbuf);
      accepted := true;
      return 0, cq;
    }

    method CheckResult(message: seq<byte>) returns (ret: int)
      requires |message| >= ACK_BYTES
      ensures ret == (if message[5] != CMD_ACK || message[6] != CMD_FRAME then EPROTO
                      else if Word(message, 7) != 0 then if Signed(Word(message, 7)) > 0 then EPROTO else Signed(Word(message, 7))
                      else if !OtherSlotsEmpty(message) then EOPNOTSUPP else 0)
    {
      hide Word;
      if message[5] != CMD_ACK || message[6] != CMD_FRAME {
        return EPROTO;
      }
      ret := Signed(Word(message, 7));
      if ret != 0 {
        return if ret > 0 then EPROTO else ret;
      }
      for i := 0 to 8
        invariant forall k | 0 <= k < i && k != 6 :: Word(message, 11 + 8 * k) == 0 && Word(message, 15 + 8 * k) == 0
      {
        if i != 6 && (Word(message, 11 + 8 * i) != 0 || Word(message, 15 + 8 * i) != 0) {
          return EOPNOTSUPP;
        }
      }
      return 0;
    }
  }

  lemma ZeroWords(a: seq<byte>, from: nat, to: nat, at: nat)
    requires to <= |a| && from <= at && at + 4 <= to && a[from..to] == Zeros(to - from)
    ensures Word(a, at) == 0
  {
    forall i | from <= i < to ensures a[i] == 0 {
      assert a[i] == a[from..to][i - from];
    }
  }

  lemma AckSlots(req: Item, result: int, offset: u32, length: u32)
    ensures OtherSlotsEmpty(AckBytes(req, result, offset, length))
  {
    hide Word, AckBytes;
    var a := AckBytes(req, result, offset, length);
    AckFields(req, result, offset, length);
    forall i | 0 <= i < 8 && i != 6 ensures Word(a, 11 + 8 * i) == 0 && Word(a, 15 + 8 * i) == 0 {
      var from, to := if i < 6 then 11 else 67, if i < 6 then 59 else 75;
      ZeroWords(a, from, to, 11 + 8 * i);
      ZeroWords(a, from, to, 15 + 8 * i);
    }
  }

  /** The consumer reads back exactly the slice that the composer filled. */
  lemma AckParses(s: Session, req: Item, offset: u32)
    requires Consistent(s) && req.session == s.session && req.command == CMD_FRAME
    requires offset + 720 <= s.mappings.work.size
    ensures var a := AckBytes(req, 0, offset, 720);
            && AckCode(s.session, req.cookie, a, WorkBuffer(s.mappings)) == 0
            && AckQueue(a, WorkBuffer(s.mappings)) == Buffer(s.mappings.work.iova + offset, 720, 1)
  {
    hide Word, AckBytes, OtherSlotsEmpty;
    AckFields(req, 0, offset, 720);
    AckSlots(req, 0, offset, 720);
  }

  /** A job that the composer accepted passes the capture checks with the queue that the ACK names. */
  lemma ComposedJobValidates(s: Session, banks: Banks, offset: u32)
    requires Consistent(s) && s.configured && BanksFit(banks) && offset + 720 <= s.mappings.work.size
    ensures ValidateCode(banks, s.job.(cq := Buffer(s.mappings.work.iova + offset, 720, 1))) == 0
  {
    hide InputMatches, LinearFirstFrame, LayoutCode, Overlap, TagBit, Partitions, Mask;
    SingleGroup(Mask(s.job));
    SameMask(s.job, Buffer(s.mappings.work.iova + offset, 720, 1));
    LayoutSizes(s.job, s.config, s.resources);
    SubSlice(WorkBuffer(s.mappings), s.job.raw, offset, 720);
    SubSlice(WorkBuffer(s.mappings), s.job.pdaf, offset, 720);
    OverlapSymmetric(s.job.raw, Buffer(s.mappings.work.iova + offset, 720, 1));
    OverlapSymmetric(s.job.pdaf, Buffer(s.mappings.work.iova + offset, 720, 1));
  }

  lemma SingleGroup(m: bv32)
    ensures Partitions(m, m, 0, 0, 0)
  {}

  lemma SameMask(job: Job, cq: Buffer)
    ensures Mask(job.(cq := cq)) == Mask(job)
  {
    hide TagBit;
  }

  lemma OverlapSymmetric(a: Buffer, b: Buffer)
    ensures Overlap(a, b) == Overlap(b, a)
  {}

  /**
   * Composer and consumer agree: with a canonical frame and room for the recipe, the
   * FRAME is composed, its ACK parses to the composed slice, and the job may be submitted.
   */
  lemma ComposerAndConsumerAgree(s: Session, message: seq<byte>, req: Item, workOffset: u32, workSize: u32, banks: Banks)
    requires Consistent(s) && s.configured && !s.frameStarted && !s.flushed && !s.closed && s.firstError == 0
    requires 14 <= req.len <= BUF_MAX && req.src == s.session + IPI_ISP_MAIN && req.id == req.src
    requires req.session == s.session && req.command == CMD_FRAME && req.cookie == s.job.sequence
    requires MessageInside(s, req) && FrameAt(message, req) == CanonicalFrame(s.job, workOffset, workSize)
    requires workOffset % 16 == 0 && workSize % 4 == 0 && workSize >= 16 * RECIPE_WRITES + 12
    requires workOffset + workSize <= s.mappings.work.size && BanksFit(banks)
    ensures var o := Dispatch(s, message, req); var work := WorkBuffer(s.mappings);
            && o.composed && o.ret == 1 && o.offset == workOffset && o.size == workSize
            && AckCode(s.session, s.job.sequence, o.reply, work) == 0
            && AckQueue(o.reply, work) == Buffer(s.mappings.work.iova + workOffset, 720, 1)
            && ValidateCode(banks, s.job.(cq := AckQueue(o.reply, work))) == 0
  {
    hide Word, AckBytes, FrameCode, FrameAt, CanonicalFrame, AckCode, AckQueue, ValidateCode, InputsCode;
    CanonicalComposes(s, message, req, workOffset, workSize);
    CanonicalHeader(s.job, workOffset, workSize);
    AckParses(s, req, workOffset);
    ComposedJobValidates(s, banks, workOffset);
  }
}
