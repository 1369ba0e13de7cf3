/**
 * The counterpart of the safety results: when nothing is lost and no call fails, CREATE,
 * CONFIG and FRAME lead to a queue that the capture path accepts.
 */
module Lossless {
  import opened Words
  import opened Capture
  import opened Recipe
  import opened Composer
  import opened Gate
  import opened Worker
  import opened CcdOwner

  const ALL_WELL := Ioctls(0, 0, 0, 0, 0)

  /** A session as preparation leaves it, for an owner of the same number. */
  predicate Ready(s: Session, o: Owner) {
    && Consistent(s) && o == FreshOwner(s.session) && s.mappings.message.iova == 0
    && s.mappings.work.fd <= 0x7fff_ffff && s.mappings.message.fd <= 0x7fff_ffff
    && s == FreshSession(s.session, s.mappings, s.resources, s.job, s.config)
  }

  /** The kernel's mappings are the session's, but for the message IOVA, which the composer must not see. */
  predicate Exported(m: Mappings, s: Session) {
    m.(message := m.message.(iova := 0)) == s.mappings
  }

  /** Both parties after CREATE and CONFIG were sent and served. */
  predicate Configured(o: Owner, s: Session, t: Session, c: Config) {
    && o == FreshOwner(s.session).(created := true, configured := true, messageSize := s.mappings.message.size,
                                   queueSize := s.mappings.work.size)
    && t == s.(created := true, configured := true, config := c)
  }

  lemma CreateServed(o: Owner, s: Session, m: Mappings, message: seq<byte>, fd: int)
    requires Ready(s, o) && Exported(m, s) && fd >= 0
    ensures var turn := CreateTurn(o, m, 0);
            && turn.ret == 0 && turn.sent.Some?
            && turn.o == o.(created := true, messageSize := s.mappings.message.size, queueSize := s.mappings.work.size)
            && ReceiveOnce(s, message, fd, 0, turn.sent.value, ALL_WELL).s == s.(created := true)
  {
    hide InputsCode, InRange, Overlap, DispatchConfig, DispatchFrame, AckBytes;
  }

  lemma ConfigServed(o: Owner, s: Session, c: Config, message: seq<byte>, fd: int)
    requires Ready(s, o) && fd >= 0 && InputsCode(s.job, c, s.resources) == 0
    ensures var p := o.(created := true, messageSize := s.mappings.message.size, queueSize := s.mappings.work.size);
            var turn := ConfigTurn(p, c, 0);
            && turn.ret == 0 && turn.sent.Some?
            && Configured(turn.o, s, ReceiveOnce(s.(created := true), message, fd, 0, turn.sent.value, ALL_WELL).s, c)
  {
    hide InputsCode, InRange, Overlap, DispatchFrame, AckBytes;
  }

  /** The frame that the kernel placed at `offset` of the message buffer. */
  predicate FramePlaced(s: Session, message: seq<byte>, offset: u32, workOffset: u32, workSize: u32) {
    && offset + FRAME_BYTES <= s.mappings.message.size <= |message|
    && message[offset..offset + FRAME_BYTES] == CanonicalFrame(s.job, workOffset, workSize)
    && workOffset % 16 == 0 && workSize % 4 == 0 && workSize >= 16 * RECIPE_WRITES + 12
    && workOffset + workSize <= s.mappings.work.size
  }

  /** Both parties between a capture and its drain, whatever became of the capture. */
  predicate DrainReady(o: Owner, s: Session) {
    && o.session == o.gate.session == s.session <= 3 && o.created && o.phase == Idle
    && !o.gate.closed && !o.gate.pending && !o.gate.flushStarted && !o.gate.flushed && !o.gate.destroyStarted
    && s.created && !s.flushed && !s.closed
  }

  lemma FrameSent(o: Owner, s: Session, t: Session, c: Config, offset: u32, timeout: nat)
    requires Consistent(s) && Configured(o, s, t, c) && 0 < timeout <= 5000 && offset + FRAME_BYTES <= s.mappings.message.size
    ensures var turn := FrameTurn(o, s.job.sequence, offset, FRAME_BYTES, timeout, 0);
            && turn.ret == 0 && turn.o == o.(frameSent := true, phase := Framing, gate := turn.o.gate)
            && turn.sent == Some(CcdOwner.Event(s.session, s.job.sequence, CMD_FRAME, NO_BUFFERS, ZERO_CONFIG, offset, FRAME_BYTES))
            && turn.o.gate == FreshGate(s.session).(pending := true, command := CMD_FRAME, cookie := s.job.sequence, frameStarted := true)
  {
    hide InputsCode, InRange, Overlap;
  }

  lemma FrameServed(s: Session, message: seq<byte>, fd: int, req: Item)
    requires s.configured && !s.frameStarted && !s.flushed && !s.closed && s.firstError == 0 && fd >= 0
    requires 6 <= req.len <= BUF_MAX && req.src == s.session + IPI_ISP_MAIN && req.id == req.src && req.session == s.session
    requires req.command == CMD_FRAME && req.cookie == s.job.sequence && Dispatch(s, message, req).ret == 1
    ensures var step := ReceiveOnce(s, message, fd, 0, req, ALL_WELL);
            && Sent(step) == Some(Dispatch(s, message, req).reply) && step.outcome == Some(Dispatch(s, message, req))
            && step.s == Dispatch(s, message, req).s
  {
    hide Dispatch;
  }

  lemma ReplyAccepted(g: GateState, session: u32, cookie: u32, a: seq<byte>, workbuf: Buffer)
    requires session <= 3
    requires g == FreshGate(session).(pending := true, command := CMD_FRAME, cookie := cookie, frameStarted := true)
    requires |a| == ACK_BYTES && AckCode(session, cookie, a, workbuf) == 0
    ensures Receive(g, Some(a)) == g.(pending := false, result := 0, reply := a)
  {
    hide Word;
    assert a[..ACK_BYTES] == a;
  }

  /**
   * A loss-free capture: the owner's three calls succeed, the frame call returns the composer's ACK, and
   * the queue that it names lies in the work slice of the frame and makes the job valid for submission.
   */
  lemma LosslessCapture(o: Owner, s: Session, m: Mappings, c: Config, message: seq<byte>, fd: int, offset: u32, workOffset: u32, workSize: u32,
                        timeout: nat, banks: Banks)
    requires Ready(s, o) && Exported(m, s) && fd >= 0 && InputsCode(s.job, c, s.resources) == 0 && BanksFit(banks) && 0 < timeout <= 5000
    requires FramePlaced(s, message, offset, workOffset, workSize)
    ensures var create := CreateTurn(o, m, 0);
            create.ret == 0 && create.sent.Some? &&
            var s1 := ReceiveOnce(s, message, fd, 0, create.sent.value, ALL_WELL).s;
            var config := ConfigTurn(create.o, c, 0);
            config.ret == 0 && config.sent.Some? &&
            var s2 := ReceiveOnce(s1, message, fd, 0, config.sent.value, ALL_WELL).s;
            var frame := FrameTurn(config.o, s.job.sequence, offset, FRAME_BYTES, timeout, 0);
            frame.ret == 0 && frame.sent.Some? &&
            var step := ReceiveOnce(s2, message, fd, 0, frame.sent.value, ALL_WELL);
            var reply := Sent(step);
            reply.Some? &&
            var done := FrameDone(frame.o.(gate := Receive(frame.o.gate, reply)), false);
            && done.ret == 0 && done.o.gate.reply == reply.value && DrainReady(done.o, step.s)
            && AckCode(s.session, s.job.sequence, reply.value, WorkBuffer(s.mappings)) == 0
            && AckQueue(reply.value, WorkBuffer(s.mappings)) == Buffer(s.mappings.work.iova + workOffset, 720, 1)
            && ValidateCode(banks, s.job.(cq := AckQueue(reply.value, WorkBuffer(s.mappings)))) == 0
  {
    hide Consistent, InputsCode, CreateTurn, ConfigTurn, FrameTurn, ReceiveOnce, Dispatch, Sent, AckCode, AckQueue, ValidateCode, Receive,
         CanonicalFrame, WorkBuffer;
    CreateServed(o, s, m, message, fd);
    ConfigServed(o, s, c, message, fd);
    var create := CreateTurn(o, m, 0);
    var s1 := ReceiveOnce(s, message, fd, 0, create.sent.value, ALL_WELL).s;
    var config := ConfigTurn(create.o, c, 0);
    var s2 := ReceiveOnce(s1, message, fd, 0, config.sent.value, ALL_WELL).s;
    var frame := FrameTurn(config.o, s.job.sequence, offset, FRAME_BYTES, timeout, 0);
    FrameSent(config.o, s, s2, c, offset, timeout);
    var req := frame.sent.value;
    SessionBound(s);
    StillConsistent(s, c);
    ComposerAndConsumerAgree(s2, message, req, workOffset, workSize, banks);
    FrameServed(s2, message, fd, req);
    var reply := Dispatch(s2, message, req).reply;
    ReplySize(s2, message, req);
    FrameLeavesOpen(s2, message, req);
    ReplyAccepted(frame.o.gate, s.session, s.job.sequence, reply, WorkBuffer(s.mappings));
  }

  lemma StillConsistent(s: Session, c: Config)
    requires Consistent(s) && s.firstError == 0 && InputsCode(s.job, c, s.resources) == 0
    requires s == FreshSession(s.session, s.mappings, s.resources, s.job, s.config)
    ensures Consistent(s.(created := true, configured := true, config := c))
  {
    hide InputsCode, InRange, Overlap;
  }

  lemma SessionBound(s: Session)
    requires Consistent(s)
    ensures s.session <= 3
  {
    hide InputsCode, InRange, Overlap;
  }

  /** A FRAME neither flushes nor closes the session. */
  lemma FrameLeavesOpen(s: Session, message: seq<byte>, req: Item)
    requires req.command == CMD_FRAME
    ensures var t := Dispatch(s, message, req).s;
            t.session == s.session && t.created == s.created && t.flushed == s.flushed && t.closed == s.closed
  {
    hide InputsCode, FrameCode, AckBytes, Word;
  }

  lemma ReplySize(s: Session, message: seq<byte>, req: Item)
    requires req.command == CMD_FRAME && Dispatch(s, message, req).ret == 1
    ensures |Dispatch(s, message, req).reply| == ACK_BYTES
  {
    hide InputsCode, FrameCode, AckBytes, Word;
  }

  // ---------------------------------------------------------------- draining

  /** The ACK of a command that is neither refused nor a FRAME. */
  lemma CommandServed(s: Session, message: seq<byte>, fd: int, req: Item)
    requires !s.closed && fd >= 0 && 6 <= req.len <= BUF_MAX && req.src == s.session + IPI_ISP_MAIN && req.id == req.src
    requires req.session == s.session && req.cookie == 0 && s.created && s.session <= 3
    requires (req.command == CMD_FLUSH && !s.flushed) || (req.command == CMD_DESTROY && s.flushed)
    ensures var step := ReceiveOnce(s, message, fd, 0, req, ALL_WELL);
            && Sent(step) == Some(AckBytes(req, 0, 0, 0))
            && step.s == if req.command == CMD_FLUSH then s.(flushed := true) else s.(closed := true)
  {
    hide AckBytes, DispatchFrame, DispatchConfig;
  }

  /** An ACK without error completes the pending command. */
  lemma AckCompletes(g: GateState, req: Item)
    requires g.pending && !g.closed && req.session == g.session && req.cookie == g.cookie && req.command == g.command && g.session <= 3
    ensures var h := Receive(g, Some(AckBytes(req, 0, 0, 0)));
            h == g.(pending := false, result := 0, reply := AckBytes(req, 0, 0, 0),
                    flushed := g.flushed || g.command == CMD_FLUSH, destroyed := g.destroyed || g.command == CMD_DESTROY,
                    closed := g.command == CMD_DESTROY)
  {
    hide Word, AckBytes;
    AckFields(req, 0, 0, 0);
    assert AckBytes(req, 0, 0, 0)[..ACK_BYTES] == AckBytes(req, 0, 0, 0);
  }

  lemma FlushSent(o: Owner, s: Session, timeout: nat)
    requires DrainReady(o, s) && 0 < timeout <= 5000
    ensures var turn := DrainTurn(o, CMD_FLUSH, timeout, 0);
            && turn.ret == 0 && turn.sent == Some(CcdOwner.Event(s.session, 0, CMD_FLUSH, NO_BUFFERS, ZERO_CONFIG, 0, 0))
            && turn.o == o.(phase := Flushing,
                            gate := o.gate.(pending := true, command := CMD_FLUSH, cookie := 0, result := 0, flushStarted := true))
  {}

  lemma DestroySent(o: Owner, s: Session, timeout: nat)
    requires o.session == o.gate.session == s.session <= 3 && o.phase == Flushing && 0 < timeout <= 5000
    requires !o.gate.closed && !o.gate.pending && o.gate.result == 0 && o.gate.flushed && !o.gate.destroyStarted
    ensures var turn := FlushDone(o, false, timeout, 0);
            && turn.ret == 0 && turn.sent == Some(CcdOwner.Event(s.session, 0, CMD_DESTROY, NO_BUFFERS, ZERO_CONFIG, 0, 0))
            && turn.o == o.(phase := Destroying,
                            gate := o.gate.(pending := true, command := CMD_DESTROY, cookie := 0, result := 0, destroyStarted := true))
  {}

  /**
   * A loss-free drain: FLUSH and then DESTROY are sent, served and accepted, the composer is closed, the owner forgets the
   * session, and the call returns the owner's first error, whatever it was.
   */
  lemma LosslessDrain(o: Owner, s: Session, message: seq<byte>, fd: int, timeout: nat)
    requires DrainReady(o, s) && fd >= 0 && 0 < timeout <= 5000
    ensures var flush := DrainTurn(o, CMD_FLUSH, timeout, 0);
            flush.ret == 0 && flush.sent.Some? && flush.sent.value.command == CMD_FLUSH &&
            var s1 := ReceiveOnce(s, message, fd, 0, flush.sent.value, ALL_WELL);
            Sent(s1).Some? && s1.s == s.(flushed := true) &&
            var destroy := FlushDone(flush.o.(gate := Receive(flush.o.gate, Sent(s1))), false, timeout, 0);
            destroy.ret == 0 && destroy.sent.Some? && destroy.sent.value.command == CMD_DESTROY &&
            var s2 := ReceiveOnce(s1.s, message, fd, 0, destroy.sent.value, ALL_WELL);
            Sent(s2).Some? && s2.s == s.(flushed := true, closed := true) &&
            var done := DestroyDone(destroy.o.(gate := Receive(destroy.o.gate, Sent(s2))), false);
            && done.ret == o.firstError && done.o.phase == Idle && !done.o.created && !done.o.configured
            && done.o.gate.flushed && done.o.gate.destroyed && done.o.gate.closed && done.o.firstError == o.firstError
  {
    hide DrainTurn, FlushDone, ReceiveOnce, Receive, Sent, AckBytes;
    FlushSent(o, s, timeout);
    var flush := DrainTurn(o, CMD_FLUSH, timeout, 0);
    CommandServed(s, message, fd, flush.sent.value);
    AckCompletes(flush.o.gate, flush.sent.value);
    var t := flush.o.(gate := Receive(flush.o.gate, Some(AckBytes(flush.sent.value, 0, 0, 0))));
    DestroySent(t, s, timeout);
    var destroy := FlushDone(t, false, timeout, 0);
    CommandServed(s.(flushed := true), message, fd, destroy.sent.value);
    AckCompletes(destroy.o.gate, destroy.sent.value);
  }

  // ---------------------------------------------------------------- such captures exist

  /** A 4000 x 3000 packed RAW10 capture on CAMSV 0 with a small PDAF plane. */
  const SAMPLE_JOB := Job(0, 4000, 3000, 7, 0, 1, [3, 0, 0, 0],
    Buffer(0x1000_0000, 15_000_000, 1), Buffer(0x2000_0000, 400_000, 1), Buffer(0, 0, 0),
    Layout(FMT_BAYER10_MIPI, 4000, 3000, 5000, 15_000_000, 0), Layout(FMT_BAYER10, 640, 480, 800, 384_000, 0))
  const SAMPLE_RESOURCES := Resources(0x1a00_0000, 0x1a01_0000, 0x1000, 0x1000, 0)
  const SAMPLE_RAW := SvInput(3, 0, 3, 1, 0, 0, FMT_BAYER10_MIPI, 0, 0, 0, 0, 0, 0, 4000, 3000)
  const SAMPLE_PDAF := SvInput(3, 1, 3, 1, 0, 0, FMT_BAYER10, 0, 0, 0, 0, 0, 0, 640, 480)
  const SAMPLE_SLOT := [SAMPLE_RAW, SAMPLE_PDAF, IDLE_INPUT, IDLE_INPUT, IDLE_INPUT, IDLE_INPUT, IDLE_INPUT, IDLE_INPUT]
  const SAMPLE_CONFIG := ZERO_CONFIG.(svInput := [SAMPLE_SLOT, IDLE_INPUTS])
  const SAMPLE_MAPPINGS := Mappings(IpiBuffer(0x3000_0000, 5, 4096), IpiBuffer(0, 6, FRAME_BYTES))
  const SAMPLE_PLACEMENT := Placement(0x10_0000, 4096, 0x20_0000, 0x30_0000, 0x40_0000)

  lemma SampleInputs()
    ensures SAMPLE_CONFIG.Shape() && InputsCode(SAMPLE_JOB, SAMPLE_CONFIG, SAMPLE_RESOURCES) == 0
  {
    hide PlanesFit, Mask, Group;
    SamplePlanes();
    SampleGroups();
  }

  lemma SampleGroups()
    ensures Group(SAMPLE_JOB, 0) == Mask(SAMPLE_JOB)
    ensures Group(SAMPLE_JOB, 1) == 0 && Group(SAMPLE_JOB, 2) == 0 && Group(SAMPLE_JOB, 3) == 0
  {}

  lemma SamplePlanes()
    ensures PlanesFit(SAMPLE_JOB)
  {}

  /** The hypotheses of a loss-free capture can be met. */
  lemma SampleCapture()
    ensures PrepareCode(0, SAMPLE_MAPPINGS, SAMPLE_PLACEMENT, SAMPLE_JOB) == 0 && SAMPLE_CONFIG.Shape()
    ensures var s := FreshSession(0, SAMPLE_MAPPINGS, SAMPLE_RESOURCES, SAMPLE_JOB, ZERO_CONFIG);
            && Ready(s, FreshOwner(0)) && InputsCode(s.job, SAMPLE_CONFIG, s.resources) == 0
            && FramePlaced(s, CanonicalFrame(s.job, 0, 4096), 0, 0, 4096)
  {
    hide InputsCode, CanonicalFrame, Consistent;
    SampleInputs();
    PreparedIsConsistent(0, SAMPLE_MAPPINGS, SAMPLE_PLACEMENT, SAMPLE_RESOURCES, SAMPLE_JOB, ZERO_CONFIG);
    var frame := CanonicalFrame(SAMPLE_JOB, 0, 4096);
    assert frame[0..0 + FRAME_BYTES] == frame;
  }
}
