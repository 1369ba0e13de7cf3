/**
 * The registered worker and the process-local mappings that it composes into.  Every
 * system call's result is an input, so runs range over all kernels.
 */
module WorkerOwner {
  import opened Errno
  import opened Words
  import opened Capture
  import opened Recipe
  import opened Composer
  import opened Worker

  datatype Registration = Registration(
    fd: int, firstError: int, session: u32, entered: bool, retired: bool, compositionFailed: bool, generation: u64)

  const UNREGISTERED := Registration(0, 0, 0, false, false, false, 0)

  datatype Ticket = Ticket(generation: u64, token: u64, src: u32, reserved: u32)

  /** What the kernel answers during one step: the retirement query, and what a receive or an ACK meets. */
  datatype Kernel = Kernel(
    query: Code, ticket: Ticket, read: Code, req: Item, message: seq<byte>, io: Ioctls, ack: Code)

  /** What the process did, in order. */
  datatype Act =
    | Registered(session: u32, code: Code, generation: u64)
    | Queried(code: Code, ticket: Ticket)
    | Received(events: seq<Event>, error: int, ret: int)
    | Acked(ticket: Ticket, code: Code)
    | Took(workFd: int, messageFd: int)
    | Mapped(side: Side, fd: int, length: u32, code: Code)
    | Unmapped(side: Side, length: u32, code: Code)
    | Closed(side: Side, fd: int, code: Code)

  // ---------------------------------------------------------------- registration and steps

  datatype OwnerTurn = OwnerTurn(o: Registration, s: Session, ret: int, acts: seq<Act>)

  function RegisterTurn(o: Registration, s: Session, fd: int, session: u32, code: Code, generation: u64): OwnerTurn {
    if fd < 0 || session > 3 then OwnerTurn(o, s, EINVAL, [])
    else if o.generation != 0 || o.entered || o.retired then OwnerTurn(o, s, EALREADY, [])
    else if o.firstError != 0 then OwnerTurn(o, s, o.firstError, [])
    else
      var acts := [Registered(session, code, generation)];
      if code != 0 then OwnerTurn(o.(firstError := code), s, code, acts)
      else if generation == 0 then OwnerTurn(o.(firstError := EPROTO), s, EPROTO, acts)
      else OwnerTurn(o.(fd := fd, session := session, generation := generation), s, 0, acts)
  }

  function Fail(o: Registration, s: Session, ret: int, acts: seq<Act>): OwnerTurn {
    OwnerTurn(if o.firstError == 0 then o.(firstError := ret) else o, s, ret, acts)
  }

  /** Results of a receive that say nothing about the mappings. */
  predicate Harmless(ret: int) {
    ret == 0 || ret == ETIMEDOUT || ret == EINTR || ret == ESHUTDOWN
  }

  predicate Genuine(o: Registration, t: Ticket) {
    t.token != 0 && t.generation == o.generation && t.src == (o.session + IPI_ISP_MAIN) % 0x1_0000_0000 && t.reserved == 0
  }

  function StepTurn(o: Registration, s: Session, k: Kernel): OwnerTurn {
    if o.generation == 0 || o.fd < 0 || s.session != o.session then OwnerTurn(o, s, EINVAL, [])
    else if o.entered || o.retired then OwnerTurn(o, s, if o.retired then ESHUTDOWN else EBUSY, [])
    else if k.query == 0 then RetireTurn(o, s, k)
    else
      var asked := [Queried(k.query, k.ticket)];
      if k.query != EAGAIN then Fail(o, s, k.query, asked)
      else if o.firstError != 0 then OwnerTurn(o, s, o.firstError, asked)
      else if s.closed && s.firstError == 0 then OwnerTurn(o, s, ESHUTDOWN, asked)
      else ReceiveTurn(o, s, k)
  }

  /** Closes the session to dispatch and acknowledges the ticket, unless a composition ever failed. */
  function RetireTurn(o: Registration, s: Session, k: Kernel): OwnerTurn {
    if !Genuine(o, k.ticket) then Fail(o, s, EPROTO, [Queried(0, k.ticket)])
    else if o.compositionFailed || s.firstError != 0 then
      Fail(o, s, if o.firstError != 0 then o.firstError else if s.firstError != 0 then s.firstError else EIO, [Queried(0, k.ticket)])
    else AckTurn(o, s.(closed := true), k)
  }

  function AckTurn(o: Registration, s: Session, k: Kernel): OwnerTurn {
    var acts := [Queried(0, k.ticket), Acked(k.ticket, k.ack)];
    if k.ack != 0 then Fail(o, s, k.ack, acts) else OwnerTurn(o.(retired := true), s, 0, acts)
  }

  /** A receive whose composition failed, or may have failed, bars every later release. */
  function ReceiveTurn(o: Registration, s: Session, k: Kernel): OwnerTurn {
    var r := ReceiveOnce(s, k.message, o.fd, k.read, k.req, k.io);
    var acts := [Queried(EAGAIN, k.ticket), Received(r.events, r.s.firstError, r.ret)];
    if r.s.firstError != 0 then Fail(o.(compositionFailed := true), r.s, r.s.firstError, acts)
    else if Harmless(r.ret) then OwnerTurn(o, r.s, r.ret, acts)
    else Fail(o.(compositionFailed := true), r.s, r.ret, acts)
  }

  // ---------------------------------------------------------------- mappings

  datatype Owner = Owner(
    worker: Registration, session: Session, scratch: bool, prepared: bool, ownsFds: bool, workMapped: bool, messageMapped: bool,
    workFd: int, messageFd: int, workSize: u32, messageSize: u32, firstError: int, cleanupError: int)

  const ZERO_BUFFER := IpiBuffer(0, 0, 0)
  const ZERO_JOB := Job(0, 0, 0, 0, 0, 0, [0, 0, 0, 0], Buffer(0, 0, 0), Buffer(0, 0, 0), Buffer(0, 0, 0),
                        Layout(0, 0, 0, 0, 0, 0), Layout(0, 0, 0, 0, 0, 0))
  const ZERO_SESSION := FreshSession(0, Mappings(ZERO_BUFFER, ZERO_BUFFER), Resources(0, 0, 0, 0, 0), ZERO_JOB, ZERO_CONFIG)
  const FRESH_OWNER := Owner(UNREGISTERED, ZERO_SESSION, false, false, false, false, false, 0, 0, 0, 0, 0, 0)

  datatype Releases = Releases(unmapMessage: Code, unmapWork: Code, closeMessage: Code, closeWork: Code)

  /** What the kernel answers during one prepare. */
  datatype Files = Files(
    statWork: Code, statMessage: Code, workLength: int, messageLength: int, sameFile: bool,
    mapWork: Code, mapMessage: Code, scratchOk: bool, placement: Placement, unwind: Releases)

  datatype MapTurn = MapTurn(m: Owner, ret: int, acts: seq<Act>)

  function Clean(m: Owner, code: int): Owner {
    if m.cleanupError == 0 then m.(cleanupError := code) else m
  }

  predicate Busy(m: Owner) {
    || m.worker.entered || m.worker.compositionFailed || m.session.firstError != 0
    || ((m.worker.generation != 0 || m.worker.firstError != 0) && !m.worker.retired)
  }

  function UnmapMessage(m: Owner, code: Code): MapTurn {
    if !m.messageMapped then MapTurn(m, 0, [])
    else if code != 0 then MapTurn(Clean(m, code), code, [Unmapped(MessageSide, m.messageSize, code)])
    else MapTurn(m.(messageMapped := false), 0, [Unmapped(MessageSide, m.messageSize, 0)])
  }

  function UnmapWork(m: Owner, code: Code): MapTurn {
    if !m.workMapped then MapTurn(m, 0, [])
    else if code != 0 then MapTurn(Clean(m, code), code, [Unmapped(WorkSide, m.workSize, code)])
    else MapTurn(m.(workMapped := false), 0, [Unmapped(WorkSide, m.workSize, 0)])
  }

  function CloseFds(m: Owner, r: Releases): MapTurn {
    if !m.ownsFds then MapTurn(m, 0, [])
    else
      var n := m.(ownsFds := false, messageFd := -1, workFd := -1);
      var p := if r.closeMessage != 0 then Clean(n, r.closeMessage) else n;
      var q := if r.closeWork != 0 then Clean(p, r.closeWork) else p;
      MapTurn(q, if r.closeMessage != 0 then r.closeMessage else r.closeWork,
              [Closed(MessageSide, m.messageFd, r.closeMessage), Closed(WorkSide, m.workFd, r.closeWork)])
  }

  /** Both unmaps are tried; the fds go only once both mappings are gone. */
  function ReleaseTurn(m: Owner, r: Releases): MapTurn {
    if Busy(m) then MapTurn(m, EBUSY, [])
    else
      var a := UnmapMessage(m.(session := m.session.(closed := true)), r.unmapMessage);
      var b := UnmapWork(a.m, r.unmapWork);
      var ret := if a.ret != 0 then a.ret else b.ret;
      if ret != 0 then MapTurn(b.m, ret, a.acts + b.acts)
      else
        var c := CloseFds(b.m.(scratch := false, prepared := false), r);
        MapTurn(c.m, c.ret, a.acts + b.acts + c.acts)
  }

  /** A failure after the fds were taken is terminal, and unwound at once. */
  function Unwind(m: Owner, ret: int, r: Releases, acts: seq<Act>): MapTurn {
    var undo := ReleaseTurn(m.(firstError := ret), r);
    MapTurn(if undo.ret != 0 then Clean(undo.m, undo.ret) else undo.m, ret, acts + undo.acts)
  }

  function PrepareTurn(m: Owner, session: u32, mappings: Mappings, resources: Resources, job: Job, f: Files): MapTurn {
    if session > 3 || mappings.work.fd > 0x7fff_ffff || mappings.message.fd > 0x7fff_ffff || mappings.work.fd == mappings.message.fd
       || mappings.work.size == 0 || mappings.message.size < FRAME_BYTES then MapTurn(m, EINVAL, [])
    else if m.prepared || m.ownsFds || m.workMapped || m.messageMapped || m.worker.generation != 0 || m.worker.firstError != 0
            || m.worker.entered || m.worker.retired then MapTurn(m, EBUSY, [])
    else if m.firstError != 0 then MapTurn(m, m.firstError, [])
    else if f.statWork != 0 then MapTurn(m, f.statWork, [])
    else if f.statMessage != 0 then MapTurn(m, f.statMessage, [])
    else if f.workLength < mappings.work.size || f.messageLength < mappings.message.size || f.sameFile then MapTurn(m, ERANGE, [])
    else MapBoth(Owning(m, mappings), session, mappings, resources, job, f)
  }

  function Owning(m: Owner, mappings: Mappings): Owner {
    m.(workFd := mappings.work.fd, messageFd := mappings.message.fd, workSize := mappings.work.size,
       messageSize := mappings.message.size, ownsFds := true)
  }

  function MapBoth(m: Owner, session: u32, mappings: Mappings, resources: Resources, job: Job, f: Files): MapTurn {
    var took := [Took(m.workFd, m.messageFd), Mapped(WorkSide, m.workFd, m.workSize, f.mapWork)];
    if f.mapWork != 0 then Unwind(m, f.mapWork, f.unwind, took)
    else
      var n, acts := m.(workMapped := true), took + [Mapped(MessageSide, m.messageFd, m.messageSize, f.mapMessage)];
      if f.mapMessage != 0 then Unwind(n, f.mapMessage, f.unwind, acts)
      else if !f.scratchOk then Unwind(n.(messageMapped := true), ENOMEM, f.unwind, acts)
      else
        var ret := PrepareCode(session, mappings, f.placement, job);
        var p := n.(messageMapped := true, scratch := true);
        if ret != 0 then Unwind(p, ret, f.unwind, acts)
        else MapTurn(p.(session := FreshSession(session, mappings, resources, job, ZERO_CONFIG), prepared := true), 0, acts)
  }

  // ---------------------------------------------------------------- the auditor

  /** An fd that is open, and the length of its mapping. */
  datatype Slot = Slot(fd: Option<int>, length: Option<u32>)

  const EMPTY_SLOT := Slot(None, None)

  datatype Answer = Unasked | Refused(code: Code) | Offered(ticket: Ticket)

  /** The worker's standing with the kernel. */
  datatype Standing = Standing(tried: bool, session: u32, generation: u64, answer: Answer, retired: bool, failed: bool)

  datatype Slots = Slots(work: Slot, message: Slot)

  /** What may be known from the acts alone. */
  datatype Books = Books(slots: Slots, worker: Standing)

  const EMPTY_BOOKS := Books(Slots(EMPTY_SLOT, EMPTY_SLOT), Standing(false, 0, 0, Unasked, false, false))

  predicate WorkerAct(act: Act) {
    act.Registered? || act.Queried? || act.Received? || act.Acked?
  }

  /** Any failure that a receive can show: the session's error, a failed ioctl, or a result that is no plain wake-up. */
  predicate FailedReceive(act: Act) {
    act.Received? &&
    (act.error != 0 || AnyFailed(act.events) || !(act.ret == 0 || act.ret == ETIMEDOUT || act.ret == EINTR || act.ret == ESHUTDOWN))
  }

  /** A ticket for exactly this registration. */
  predicate TicketFor(session: u32, generation: u64, t: Ticket) {
    t.token != 0 && t.generation == generation != 0 && t.src == (session + IPI_ISP_MAIN) % 0x1_0000_0000 && t.reserved == 0
  }

  /**
   * The worker's rules: register once; receive only after retirement was asked for and not offered;
   * acknowledge only the ticket just offered for this registration, and not after a failed receive.
   */
  function EnterWorker(w: Standing, act: Act): Option<Standing>
    requires WorkerAct(act)
  {
    match act
    case Registered(session, code, generation) =>
      if w.tried then None
      else Some(w.(tried := true, session := session, generation := if code == 0 then generation else 0, answer := Unasked))
    case Queried(code, ticket) =>
      if w.generation == 0 || w.retired then None
      else Some(w.(answer := if code == 0 then Offered(ticket) else Refused(code)))
    case Received(_, _, _) =>
      if w.answer != Refused(EAGAIN) || w.retired then None
      else Some(w.(answer := Unasked, failed := w.failed || FailedReceive(act)))
    case Acked(ticket, code) =>
      if w.answer != Offered(ticket) || !TicketFor(w.session, w.generation, ticket) || w.retired || w.failed then None
      else Some(w.(answer := Unasked, retired := code == 0))
  }

  function SlotOf(s: Slots, side: Side): Slot {
    if side == WorkSide then s.work else s.message
  }

  function WithSlot(s: Slots, side: Side, slot: Slot): Slots {
    if side == WorkSide then s.(work := slot) else s.(message := slot)
  }

  /** No registration was ever tried, or its retirement was acknowledged; and nothing ever failed. */
  predicate MayRelease(w: Standing) {
    (w.tried ==> w.retired) && !w.failed
  }

  /**
   * The rules of release: take and map fds only before registration; unmap what is mapped, at its length; close
   * exactly the fd that was taken, once, after both mappings are gone; and release only as the worker's standing allows.
   */
  function EnterSlots(s: Slots, w: Standing, act: Act): Option<Slots>
    requires !WorkerAct(act)
  {
    match act
    case Took(workFd, messageFd) =>
      if s != Slots(EMPTY_SLOT, EMPTY_SLOT) || w.tried || workFd == messageFd then None
      else Some(Slots(Slot(Some(workFd), None), Slot(Some(messageFd), None)))
    case Mapped(side, fd, length, code) =>
      if SlotOf(s, side) != Slot(Some(fd), None) || w.tried then None
      else if code != 0 then Some(s)
      else Some(WithSlot(s, side, Slot(Some(fd), Some(length))))
    case Unmapped(side, length, code) =>
      if SlotOf(s, side).length != Some(length) || !MayRelease(w) then None
      else if code != 0 then Some(s)
      else Some(WithSlot(s, side, SlotOf(s, side).(length := None)))
    case Closed(side, fd, _) =>
      if SlotOf(s, side).fd != Some(fd) || s.work.length.Some? || s.message.length.Some? || !MayRelease(w) then None
      else Some(WithSlot(s, side, EMPTY_SLOT))
  }

  /** None if the act breaks a rule. */
  function Enter(b: Books, act: Act): Option<Books> {
    if WorkerAct(act) then
      match EnterWorker(b.worker, act)
      case None => None
      case Some(w) => Some(b.(worker := w))
    else
      match EnterSlots(b.slots, b.worker, act)
      case None => None
      case Some(s) => Some(Books(s, b.worker.(answer := Unasked)))
  }

  function Audit(b: Books, acts: seq<Act>): Option<Books> {
    if acts == [] then Some(b)
    else
      match Audit(b, acts[..|acts| - 1])
      case None => None
      case Some(c) => Enter(c, acts[|acts| - 1])
  }

  lemma {:induction false} AuditAppend(b: Books, first: seq<Act>, second: seq<Act>)
    requires Audit(b, first).Some?
    ensures Audit(b, first + second) == Audit(Audit(b, first).value, second)
    decreases |second|
  {
    hide Enter;
    if second == [] {
      assert first + second == first;
    } else {
      AuditAppend(b, first, second[..|second| - 1]);
      assert (first + second)[..|first + second| - 1] == first + second[..|second| - 1];
    }
  }

  // ---------------------------------------------------------------- runs

  datatype Call =
    | Prepare(session: u32, mappings: Mappings, resources: Resources, job: Job, files: Files)
    | Register(fd: int, id: u32, code: Code, generation: u64)
    | Step(kernel: Kernel)
    | Release(releases: Releases)

  function Next(m: Owner, call: Call): MapTurn {
    match call
    case Prepare(session, mappings, resources, job, files) => PrepareTurn(m, session, mappings, resources, job, files)
    case Register(fd, id, code, generation) =>
      var t := RegisterTurn(m.worker, m.session, fd, id, code, generation);
      MapTurn(m.(worker := t.o, session := t.s), t.ret, t.acts)
    case Step(kernel) =>
      var t := StepTurn(m.worker, m.session, kernel);
      MapTurn(m.(worker := t.o, session := t.s), t.ret, t.acts)
    case Release(releases) => ReleaseTurn(m, releases)
  }

  /** Any calls in any order on a zero-initialized owner, with any system call results. */
  function After(calls: seq<Call>): (r: (Owner, seq<Act>)) {
    if calls == [] then (FRESH_OWNER, [])
    else
      var before := After(calls[..|calls| - 1]);
      var turn := Next(before.0, calls[|calls| - 1]);
      (turn.m, before.1 + turn.acts)
  }

  /** The books agree with the registration, and with the session's error. */
  predicate WorkerKept(o: Registration, error: int, w: Standing) {
    && (w.tried <==> o.generation != 0 || o.firstError != 0)
    && w.generation == o.generation && (o.generation != 0 ==> w.session == o.session)
    && w.retired == o.retired && !o.entered && (o.retired ==> o.generation != 0)
    && w.failed == o.compositionFailed && (error != 0 ==> o.compositionFailed)
    && (o.compositionFailed ==> o.generation != 0 && !o.retired)
  }

  /** The books agree with the fds and mappings. */
  predicate MapsKept(m: Owner, s: Slots) {
    && s.work == Slot(if m.ownsFds then Some(m.workFd) else None, if m.workMapped then Some(m.workSize) else None)
    && s.message == Slot(if m.ownsFds then Some(m.messageFd) else None, if m.messageMapped then Some(m.messageSize) else None)
    && (m.workMapped || m.messageMapped ==> m.ownsFds)
  }

  predicate Kept(m: Owner, b: Books) {
    WorkerKept(m.worker, m.session.firstError, b.worker) && MapsKept(m, b.slots)
  }

  lemma AuditOne(b: Books, act: Act)
    ensures Audit(b, [act]) == Enter(b, act)
  {
    hide Enter;
    assert [act][..0] == [];
    assert Audit(b, []) == Some(b);
  }

  lemma AuditNone(b: Books)
    ensures Audit(b, []) == Some(b)
  {}

  lemma AuditTwo(b: Books, first: Act, second: Act)
    requires Enter(b, first).Some?
    ensures Audit(b, [first, second]) == Enter(Enter(b, first).value, second)
  {
    hide Enter;
    AuditOne(b, first);
    assert [first, second][..1] == [first];
  }

  ghost predicate Legal(b: Books, t: MapTurn) {
    Audit(b, t.acts).Some? && Kept(t.m, Audit(b, t.acts).value)
  }

  /** The acts of a worker turn are in order, and leave its standing as the registration says. */
  ghost predicate LegalOwner(b: Books, t: OwnerTurn) {
    && Audit(b, t.acts).Some? && Audit(b, t.acts).value.slots == b.slots
    && WorkerKept(t.o, t.s.firstError, Audit(b, t.acts).value.worker)
  }

  lemma RegisterLegal(o: Registration, s: Session, b: Books, fd: int, session: u32, code: Code, generation: u64)
    requires WorkerKept(o, s.firstError, b.worker)
    ensures LegalOwner(b, RegisterTurn(o, s, fd, session, code, generation))
  {
    hide Audit;
    AuditNone(b);
    AuditOne(b, Registered(session, code, generation));
  }

  lemma RegisterKept(m: Owner, b: Books, call: Call)
    requires Kept(m, b) && call.Register?
    ensures Legal(b, Next(m, call))
  {
    hide Audit, RegisterTurn, WorkerKept;
    RegisterLegal(m.worker, m.session, b, call.fd, call.id, call.code, call.generation);
  }

  /** A query changes only the answer on record. */
  lemma QueryLegal(b: Books, code: Code, ticket: Ticket)
    requires b.worker.generation != 0 && !b.worker.retired
    ensures Enter(b, Queried(code, ticket))
            == Some(b.(worker := b.worker.(answer := if code == 0 then Offered(ticket) else Refused(code))))
  {}

  lemma ReceiveActs(b: Books, ticket: Ticket, received: Act)
    requires b.worker.generation != 0 && !b.worker.retired && received.Received?
    ensures Audit(b, [Queried(EAGAIN, ticket), received])
            == Some(b.(worker := b.worker.(answer := Unasked, failed := b.worker.failed || FailedReceive(received))))
  {
    hide Audit, FailedReceive;
    AuditTwo(b, Queried(EAGAIN, ticket), received);
  }

  lemma ReceiveKept(o: Registration, s: Session, b: Books, k: Kernel)
    requires WorkerKept(o, s.firstError, b.worker) && o.generation != 0 && !o.retired && o.firstError == 0
    ensures LegalOwner(b, ReceiveTurn(o, s, k))
  {
    hide Audit, ReceiveOnce, AnyFailed, Enter;
    var r := ReceiveOnce(s, k.message, o.fd, k.read, k.req, k.io);
    FailureSeen(s, k.message, o.fd, k.read, k.req, k.io);
    ReceiveActs(b, k.ticket, Received(r.events, r.s.firstError, r.ret));
  }

  lemma AckActs(b: Books, ticket: Ticket, code: Code)
    requires TicketFor(b.worker.session, b.worker.generation, ticket) && !b.worker.retired && !b.worker.failed
    ensures Audit(b, [Queried(0, ticket), Acked(ticket, code)])
            == Some(b.(worker := b.worker.(answer := Unasked, retired := code == 0)))
  {
    hide Audit;
    AuditTwo(b, Queried(0, ticket), Acked(ticket, code));
  }

  lemma AckKept(o: Registration, s: Session, b: Books, k: Kernel)
    requires WorkerKept(o, s.firstError, b.worker) && o.generation != 0 && !o.retired && Genuine(o, k.ticket)
    requires !o.compositionFailed && s.firstError == 0
    ensures LegalOwner(b, AckTurn(o, s, k))
  {
    hide Audit, Enter;
    AckActs(b, k.ticket, k.ack);
  }

  /** A turn that did nothing but ask. */
  lemma AskedKept(o: Registration, s: Session, b: Books, code: Code, ticket: Ticket, ret: int)
    requires WorkerKept(o, s.firstError, b.worker) && o.generation != 0 && !o.retired
    ensures LegalOwner(b, Fail(o, s, ret, [Queried(code, ticket)])) && LegalOwner(b, OwnerTurn(o, s, ret, [Queried(code, ticket)]))
  {
    hide Audit, Enter;
    AuditOne(b, Queried(code, ticket));
    QueryLegal(b, code, ticket);
  }

  lemma RetireKept(o: Registration, s: Session, b: Books, k: Kernel)
    requires WorkerKept(o, s.firstError, b.worker) && o.generation != 0 && !o.retired
    ensures LegalOwner(b, RetireTurn(o, s, k))
  {
    hide Audit, Genuine, LegalOwner, AckTurn, Fail;
    var t := RetireTurn(o, s, k);
    AskedKept(o, s, b, 0, k.ticket, t.ret);
    FailReturns(o, s, EPROTO, [Queried(0, k.ticket)]);
    FailReturns(o, s, if o.firstError != 0 then o.firstError else if s.firstError != 0 then s.firstError else EIO, [Queried(0, k.ticket)]);
    if Genuine(o, k.ticket) && !o.compositionFailed && s.firstError == 0 {
      AckKept(o, s.(closed := true), b, k);
    }
  }

  lemma FailReturns(o: Registration, s: Session, ret: int, acts: seq<Act>)
    ensures Fail(o, s, ret, acts).ret == ret
  {}

  lemma StepLegal(o: Registration, s: Session, b: Books, k: Kernel)
    requires WorkerKept(o, s.firstError, b.worker)
    ensures LegalOwner(b, StepTurn(o, s, k))
  {
    hide Audit, ReceiveTurn, RetireTurn, Enter, Fail;
    AuditNone(b);
    if o.generation != 0 && !o.retired {
      RetireKept(o, s, b, k);
      AskedKept(o, s, b, k.query, k.ticket, k.query);
      AskedKept(o, s, b, k.query, k.ticket, o.firstError);
      AskedKept(o, s, b, k.query, k.ticket, ESHUTDOWN);
    }
    if o.generation != 0 && !o.retired && o.firstError == 0 {
      ReceiveKept(o, s, b, k);
    }
  }

  lemma StepKept(m: Owner, b: Books, call: Call)
    requires Kept(m, b) && call.Step?
    ensures Legal(b, Next(m, call))
  {
    hide Audit, StepTurn, WorkerKept;
    StepLegal(m.worker, m.session, b, call.kernel);
  }

  /** Turn `second` continues turn `first`. */
  lemma LegalThen(b: Books, first: MapTurn, c: Books, second: MapTurn, both: MapTurn)
    requires Audit(b, first.acts) == Some(c) && Legal(c, second)
    requires both.m == second.m && both.acts == first.acts + second.acts
    ensures Legal(b, both)
  {
    hide Audit, Kept;
    AuditAppend(b, first.acts, second.acts);
  }

  lemma UnmapKept(m: Owner, b: Books, code: Code)
    requires Kept(m, b) && !Busy(m)
    ensures Legal(b, UnmapMessage(m, code)) && Legal(b, UnmapWork(m, code))
  {
    hide Audit;
    AuditNone(b);
    AuditOne(b, Unmapped(MessageSide, m.messageSize, code));
    AuditOne(b, Unmapped(WorkSide, m.workSize, code));
  }

  lemma CloseKept(m: Owner, b: Books, r: Releases)
    requires Kept(m, b) && !m.workMapped && !m.messageMapped && !Busy(m)
    ensures Legal(b, CloseFds(m, r))
  {
    hide Audit;
    AuditNone(b);
    if m.ownsFds {
      var first, second := Closed(MessageSide, m.messageFd, r.closeMessage), Closed(WorkSide, m.workFd, r.closeWork);
      AuditTwo(b, first, second);
    }
  }

  lemma ReleaseKept(m: Owner, b: Books, r: Releases)
    requires Kept(m, b)
    ensures Legal(b, ReleaseTurn(m, r))
  {
    hide Audit, UnmapMessage, UnmapWork, CloseFds;
    AuditNone(b);
    if !Busy(m) {
      var a := UnmapMessage(m.(session := m.session.(closed := true)), r.unmapMessage);
      UnmapKept(m.(session := m.session.(closed := true)), b, r.unmapMessage);
      var c := Audit(b, a.acts).value;
      UnmapStays(m.(session := m.session.(closed := true)), r.unmapMessage);
      var d := UnmapWork(a.m, r.unmapWork);
      UnmapKept(a.m, c, r.unmapWork);
      UnmapStays(a.m, r.unmapWork);
      LegalThen(b, a, c, d, MapTurn(d.m, 0, a.acts + d.acts));
      if a.ret == 0 && d.ret == 0 {
        var e := Audit(b, a.acts + d.acts).value;
        var close := CloseFds(d.m.(scratch := false, prepared := false), r);
        CloseKept(d.m.(scratch := false, prepared := false), e, r);
        LegalThen(b, MapTurn(d.m, 0, a.acts + d.acts), e, close, MapTurn(close.m, 0, a.acts + d.acts + close.acts));
      }
    }
  }

  /** An unmap leaves the registration and session alone, and succeeds only by removing the mapping. */
  lemma UnmapStays(m: Owner, code: Code)
    ensures var a, b := UnmapMessage(m, code), UnmapWork(m, code);
            && a.m.worker == b.m.worker == m.worker && a.m.session == b.m.session == m.session
            && (a.ret == 0 ==> !a.m.messageMapped) && (b.ret == 0 ==> !b.m.workMapped) && b.m.messageMapped == m.messageMapped
  {}

  lemma UnwindKept(m: Owner, b: Books, ret: int, r: Releases, c: Books, acts: seq<Act>)
    requires Audit(b, acts) == Some(c) && Kept(m, c)
    ensures Legal(b, Unwind(m, ret, r, acts))
  {
    hide Audit, ReleaseTurn, Busy;
    var n := m.(firstError := ret);
    ReleaseKept(n, c, r);
    var undo := ReleaseTurn(n, r);
    LegalThen(b, MapTurn(m, 0, acts), c, undo, MapTurn(undo.m, ret, acts + undo.acts));
  }

  lemma PrepareKept(m: Owner, b: Books, call: Call)
    requires Kept(m, b) && call.Prepare?
    ensures Legal(b, Next(m, call))
  {
    hide Audit, Unwind, PrepareCode, MapBoth;
    AuditNone(b);
    if !(m.prepared || m.ownsFds || m.workMapped || m.messageMapped || m.worker.generation != 0 || m.worker.firstError != 0)
       && call.mappings.work.fd != call.mappings.message.fd {
      MapBothKept(m, b, call.session, call.mappings, call.resources, call.job, call.files);
    }
  }

  lemma MapBothKept(m: Owner, b: Books, session: u32, mappings: Mappings, resources: Resources, job: Job, f: Files)
    requires Kept(m, b) && !m.ownsFds && !m.workMapped && !m.messageMapped && mappings.work.fd != mappings.message.fd
    requires m.worker.generation == 0 && m.worker.firstError == 0
    ensures Legal(b, MapBoth(Owning(m, mappings), session, mappings, resources, job, f))
  {
    hide Audit, Unwind, PrepareCode, Enter, WorkerKept;
    var o := Owning(m, mappings);
    var take, work := Took(o.workFd, o.messageFd), Mapped(WorkSide, o.workFd, o.workSize, f.mapWork);
    var message := Mapped(MessageSide, o.messageFd, o.messageSize, f.mapMessage);
    TakeEntered(m, b, mappings);
    var c := Enter(b, take).value;
    AuditTwo(b, take, work);
    MapEntered(o, c, WorkSide, f.mapWork);
    var n, d := o.(workMapped := f.mapWork == 0), Enter(c, work).value;
    if f.mapWork != 0 {
      UnwindKept(n, b, f.mapWork, f.unwind, d, [take, work]);
    } else {
      AuditAppend(b, [take, work], [message]);
      AuditOne(d, message);
      MapEntered(n, d, MessageSide, f.mapMessage);
      var acts, e := [take, work] + [message], Enter(d, message).value;
      if f.mapMessage != 0 {
        UnwindKept(n, b, f.mapMessage, f.unwind, e, acts);
      } else {
        UnwindKept(n.(messageMapped := true), b, ENOMEM, f.unwind, e, acts);
        UnwindKept(n.(messageMapped := true, scratch := true), b, PrepareCode(session, mappings, f.placement, job), f.unwind, e, acts);
        FreshUnfailed(n.worker, m.session.firstError, e.worker);
      }
    }
  }

  lemma TakeEntered(m: Owner, b: Books, mappings: Mappings)
    requires Kept(m, b) && !m.ownsFds && !m.workMapped && !m.messageMapped && mappings.work.fd != mappings.message.fd
    requires m.worker.generation == 0 && m.worker.firstError == 0
    ensures Enter(b, Took(mappings.work.fd, mappings.message.fd)).Some?
            && !Enter(b, Took(mappings.work.fd, mappings.message.fd)).value.worker.tried
            && Kept(Owning(m, mappings), Enter(b, Took(mappings.work.fd, mappings.message.fd)).value)
  {}

  lemma MapEntered(o: Owner, b: Books, side: Side, code: Code)
    requires Kept(o, b) && !b.worker.tried && o.ownsFds && (if side == WorkSide then !o.workMapped else !o.messageMapped)
    ensures var act := if side == WorkSide then Mapped(side, o.workFd, o.workSize, code) else Mapped(side, o.messageFd, o.messageSize, code);
            && Enter(b, act).Some? && !Enter(b, act).value.worker.tried
            && Kept(if side == WorkSide then o.(workMapped := code == 0) else o.(messageMapped := code == 0), Enter(b, act).value)
  {}

  /** An unregistered worker stands as well with a session that has no error. */
  lemma FreshUnfailed(o: Registration, error: int, w: Standing)
    requires WorkerKept(o, error, w)
    ensures WorkerKept(o, 0, w)
  {}

  lemma CallKept(m: Owner, b: Books, call: Call)
    requires Kept(m, b)
    ensures Legal(b, Next(m, call))
  {
    hide Audit, Kept, RegisterTurn, StepTurn, PrepareTurn, ReleaseTurn;
    match call
    case Prepare(_, _, _, _, _) => PrepareKept(m, b, call);
    case Register(_, _, _, _) => RegisterKept(m, b, call);
    case Step(_) => StepKept(m, b, call);
    case Release(r) => ReleaseKept(m, b, r);
  }

  /** Release safety: the acts of every run obey the rules, and the owner's flags are what the acts say. */
  lemma {:induction false} ReleaseSafety(calls: seq<Call>)
    ensures var (m, acts) := After(calls); Audit(EMPTY_BOOKS, acts).Some? && Kept(m, Audit(EMPTY_BOOKS, acts).value)
  {
    hide Audit, Kept, Next;
    if calls == [] {
      FreshKept();
    } else {
      ReleaseSafety(calls[..|calls| - 1]);
      var (m, acts) := After(calls[..|calls| - 1]);
      var b := Audit(EMPTY_BOOKS, acts).value;
      var turn := Next(m, calls[|calls| - 1]);
      CallKept(m, b, calls[|calls| - 1]);
      LegalThen(EMPTY_BOOKS, MapTurn(m, 0, acts), b, turn, MapTurn(turn.m, 0, acts + turn.acts));
    }
  }

  lemma FreshKept()
    ensures Audit(EMPTY_BOOKS, []) == Some(EMPTY_BOOKS) && Kept(FRESH_OWNER, EMPTY_BOOKS)
  {}

  // ---------------------------------------------------------------- what the rules mean

  predicate Registers(act: Act) {
    act.Registered?
  }

  predicate Occurs(acts: seq<Act>, p: Act -> bool) {
    exists k | 0 <= k < |acts| :: p(acts[k])
  }

  lemma OccursLast(acts: seq<Act>, p: Act -> bool)
    requires acts != []
    ensures Occurs(acts, p) <==> Occurs(acts[..|acts| - 1], p) || p(acts[|acts| - 1])
  {
    var init := acts[..|acts| - 1];
    if k :| 0 <= k < |acts| && p(acts[k]) && k < |init| {
      assert p(init[k]);
    }
    if k :| 0 <= k < |init| && p(init[k]) {
      assert p(acts[k]);
    }
  }

  lemma NothingOccurs()
    ensures !Occurs([], Registers) && !Occurs([], FailedReceive)
  {}

  /** The fd of a side that was taken last and not closed since. */
  function Held(acts: seq<Act>, side: Side): Option<int> {
    if acts == [] then None
    else
      var last := acts[|acts| - 1];
      if last.Took? then Some(FdOf(last, side))
      else if last.Closed? && last.side == side then None
      else Held(acts[..|acts| - 1], side)
  }

  function FdOf(take: Act, side: Side): int
    requires take.Took?
  {
    if side == WorkSide then take.workFd else take.messageFd
  }

  /** The length of a side's mapping that was made last and not removed since. */
  function StillMapped(acts: seq<Act>, side: Side): Option<u32> {
    if acts == [] then None
    else
      var last := acts[|acts| - 1];
      if Maps(last, side) then Some(last.length) else if Unmaps(last, side) then None else StillMapped(acts[..|acts| - 1], side)
  }

  predicate Maps(act: Act, side: Side) {
    act.Mapped? && act.side == side && act.code == 0
  }

  predicate Unmaps(act: Act, side: Side) {
    act.Unmapped? && act.side == side && act.code == 0
  }

  predicate ClosesSide(act: Act, side: Side) {
    act.Closed? && act.side == side
  }

  /** Act `j` acknowledged the ticket that the query just before it returned for the registration made by act `i`. */
  predicate Retirement(acts: seq<Act>, i: nat, j: nat)
    requires i < j < |acts|
  {
    && acts[i].Registered? && acts[i].code == 0 && acts[j].Acked? && acts[j].code == 0
    && i < j - 1 && acts[j - 1] == Queried(0, acts[j].ticket) && TicketFor(acts[i].session, acts[i].generation, acts[j].ticket)
  }

  ghost predicate Retired(acts: seq<Act>) {
    exists i: nat, j: nat | i < j < |acts| :: Retirement(acts, i, j)
  }

  /** Some act registered this session and generation. */
  ghost predicate RegisteredAs(acts: seq<Act>, session: u32, generation: u64) {
    exists i | 0 <= i < |acts| :: acts[i] == Registered(session, 0, generation)
  }

  /** What the worker's standing says, in terms of the acts. */
  ghost predicate StandingMeans(acts: seq<Act>, w: Standing) {
    && w.tried == Occurs(acts, Registers) && w.failed == Occurs(acts, FailedReceive)
    && (w.generation != 0 ==> RegisteredAs(acts, w.session, w.generation))
    && (w.answer.Offered? ==> acts != [] && acts[|acts| - 1] == Queried(0, w.answer.ticket))
    && w.retired == Retired(acts)
  }

  lemma RegisteredLonger(acts: seq<Act>, session: u32, generation: u64)
    requires acts != [] && RegisteredAs(acts[..|acts| - 1], session, generation)
    ensures RegisteredAs(acts, session, generation)
  {
    var init := acts[..|acts| - 1];
    var i :| 0 <= i < |init| && init[i] == Registered(session, 0, generation);
    assert acts[i] == Registered(session, 0, generation);
  }

  lemma RetiredLonger(acts: seq<Act>)
    requires acts != [] && Retired(acts[..|acts| - 1])
    ensures Retired(acts)
  {
    var init := acts[..|acts| - 1];
    var i: nat, j: nat :| i < j < |init| && Retirement(init, i, j);
    assert Retirement(acts, i, j);
  }

  lemma RetiredShorter(acts: seq<Act>)
    requires acts != [] && Retired(acts) && !(acts[|acts| - 1].Acked? && acts[|acts| - 1].code == 0)
    ensures Retired(acts[..|acts| - 1])
  {
    var init := acts[..|acts| - 1];
    var i: nat, j: nat :| i < j < |acts| && Retirement(acts, i, j);
    assert Retirement(init, i, j);
  }

  /** A legal acknowledgement is a retirement. */
  lemma AckRetires(acts: seq<Act>, w: Standing)
    requires acts != [] && StandingMeans(acts[..|acts| - 1], w)
    requires var act := acts[|acts| - 1]; act.Acked? && act.code == 0 && EnterWorker(w, act).Some?
    ensures Retired(acts)
  {
    hide Occurs;
    var init := acts[..|acts| - 1];
    var i :| 0 <= i < |init| && init[i] == Registered(w.session, 0, w.generation);
    assert acts[i] == init[i] && acts[|acts| - 2] == init[|init| - 1];
    assert Retirement(acts, i, |acts| - 1);
  }

  lemma StandingStep(acts: seq<Act>, w: Standing)
    requires acts != [] && StandingMeans(acts[..|acts| - 1], w)
    requires var act := acts[|acts| - 1]; WorkerAct(act) && EnterWorker(w, act).Some?
    ensures StandingMeans(acts, EnterWorker(w, acts[|acts| - 1]).value)
  {
    hide Occurs, FailedReceive, Retired, RegisteredAs, TicketFor;
    var act := acts[|acts| - 1];
    OccursLast(acts, Registers);
    OccursLast(acts, FailedReceive);
    NotFailed(act);
    if w.generation != 0 {
      RegisteredLonger(acts, w.session, w.generation);
    }
    if w.retired {
      RetiredLonger(acts);
    }
    if Retired(acts) && !(acts[|acts| - 1].Acked? && acts[|acts| - 1].code == 0) {
      RetiredShorter(acts);
    }
    if act.Registered? {
      NewlyRegistered(acts);
    }
    if act.Acked? && act.code == 0 {
      AckRetires(acts, w);
    }
  }

  lemma NotFailed(act: Act)
    ensures !act.Received? ==> !FailedReceive(act)
  {}

  lemma NewlyRegistered(acts: seq<Act>)
    requires acts != [] && acts[|acts| - 1].Registered?
    ensures acts[|acts| - 1].code == 0 ==> RegisteredAs(acts, acts[|acts| - 1].session, acts[|acts| - 1].generation)
  {}

  /** Other acts do not change the worker's standing. */
  lemma StandingStays(acts: seq<Act>, w: Standing)
    requires acts != [] && StandingMeans(acts[..|acts| - 1], w) && !WorkerAct(acts[|acts| - 1])
    ensures StandingMeans(acts, w.(answer := Unasked))
  {
    hide Occurs, FailedReceive, Retired, RegisteredAs;
    OccursLast(acts, Registers);
    OccursLast(acts, FailedReceive);
    NotFailed(acts[|acts| - 1]);
    if w.generation != 0 {
      RegisteredLonger(acts, w.session, w.generation);
    }
    if w.retired {
      RetiredLonger(acts);
    }
    if Retired(acts) {
      RetiredShorter(acts);
    }
  }

  lemma SlotStep(acts: seq<Act>, s: Slots, w: Standing, side: Side)
    requires acts != [] && !WorkerAct(acts[|acts| - 1]) && EnterSlots(s, w, acts[|acts| - 1]).Some?
    requires SlotOf(s, side) == Slot(Held(acts[..|acts| - 1], side), StillMapped(acts[..|acts| - 1], side))
    ensures SlotOf(EnterSlots(s, w, acts[|acts| - 1]).value, side) == Slot(Held(acts, side), StillMapped(acts, side))
  {
    hide MayRelease;
  }

  /** Everything in the books is a fact about the acts. */
  lemma {:induction false} BooksMean(acts: seq<Act>)
    requires Audit(EMPTY_BOOKS, acts).Some?
    ensures var b := Audit(EMPTY_BOOKS, acts).value;
            && StandingMeans(acts, b.worker)
            && b.slots == Slots(Slot(Held(acts, WorkSide), StillMapped(acts, WorkSide)), Slot(Held(acts, MessageSide), StillMapped(acts, MessageSide)))
  {
    hide StandingMeans, EnterWorker, EnterSlots;
    if acts == [] {
      NothingMeans();
    } else {
      BooksMean(acts[..|acts| - 1]);
      var b, act := Audit(EMPTY_BOOKS, acts[..|acts| - 1]).value, acts[|acts| - 1];
      if WorkerAct(act) {
        StandingStep(acts, b.worker);
      } else {
        StandingStays(acts, b.worker);
        SlotStep(acts, b.slots, b.worker, WorkSide);
        SlotStep(acts, b.slots, b.worker, MessageSide);
      }
    }
  }

  lemma NothingMeans()
    ensures StandingMeans([], EMPTY_BOOKS.worker)
  {
    NothingOccurs();
  }

  lemma {:induction false} AuditPrefix(b: Books, acts: seq<Act>, k: nat)
    requires k <= |acts| && Audit(b, acts).Some?
    ensures Audit(b, acts[..k]).Some?
  {
    hide Enter;
    if k < |acts| {
      AuditPrefix(b, acts[..|acts| - 1], k);
      assert acts[..|acts| - 1][..k] == acts[..k];
    } else {
      assert acts[..k] == acts;
    }
  }

  function Takes(acts: seq<Act>): nat {
    if acts == [] then 0 else Takes(acts[..|acts| - 1]) + One(acts[|acts| - 1].Took?)
  }

  function Closes(acts: seq<Act>, side: Side): nat {
    if acts == [] then 0 else Closes(acts[..|acts| - 1], side) + One(ClosesSide(acts[|acts| - 1], side))
  }

  lemma HeldStep(acts: seq<Act>, b: Books, side: Side)
    requires acts != [] && Enter(b, acts[|acts| - 1]).Some? && SlotOf(b.slots, side).fd == Held(acts[..|acts| - 1], side)
    ensures One(Held(acts[..|acts| - 1], side).Some?) + One(acts[|acts| - 1].Took?)
            == One(Held(acts, side).Some?) + One(ClosesSide(acts[|acts| - 1], side))
  {
    hide EnterWorker, MayRelease;
  }

  /** Each side was closed as often as it was taken, but for the fd still held. */
  lemma {:induction false} ClosesBalance(acts: seq<Act>, side: Side)
    requires Audit(EMPTY_BOOKS, acts).Some?
    ensures Takes(acts) == Closes(acts, side) + One(Held(acts, side).Some?)
  {
    hide Held, Enter, StandingMeans, StillMapped, One;
    if acts == [] {
      NoneHeld(side);
    } else {
      var init := acts[..|acts| - 1];
      ClosesBalance(init, side);
      BooksMean(init);
      HeldStep(acts, Audit(EMPTY_BOOKS, init).value, side);
    }
  }

  lemma NoneHeld(side: Side)
    ensures Held([], side).None? && One(false) == 0
  {}

  // ---------------------------------------------------------------- release safety, over acts alone

  /** Act `t` took this fd, and its side was not closed between `t` and `k`. */
  ghost predicate TakenAt(acts: seq<Act>, t: nat, k: nat, side: Side, fd: int)
    requires k <= |acts|
  {
    t < k && acts[t].Took? && FdOf(acts[t], side) == fd && forall u | t < u < k :: !ClosesSide(acts[u], side)
  }

  lemma {:induction false} HeldMeans(acts: seq<Act>, side: Side) returns (t: nat)
    requires Held(acts, side).Some?
    ensures TakenAt(acts, t, |acts|, side, Held(acts, side).value)
  {
    var n := |acts| - 1;
    if acts[n].Took? {
      t := n;
    } else {
      t := HeldMeans(acts[..n], side);
      forall u | t < u < |acts| ensures !ClosesSide(acts[u], side) {
        if u < n {
          assert acts[..n][u] == acts[u];
        }
      }
    }
  }

  /** Act `i` mapped the side, and a later act before `k` unmapped it. */
  ghost predicate UnmappedLater(acts: seq<Act>, i: nat, k: nat, side: Side)
    requires k <= |acts|
  {
    exists u | i < u < k :: Unmaps(acts[u], side)
  }

  lemma {:induction false} GoneMeans(acts: seq<Act>, side: Side, i: nat)
    requires StillMapped(acts, side).None? && i < |acts| && Maps(acts[i], side)
    ensures UnmappedLater(acts, i, |acts|, side)
  {
    var n := |acts| - 1;
    if Unmaps(acts[n], side) {
      assert i < n;
    } else {
      assert acts[..n][i] == acts[i];
      GoneMeans(acts[..n], side, i);
      var u :| i < u < n && Unmaps(acts[..n][u], side);
      assert Unmaps(acts[u], side);
    }
  }

  /** Nothing failed, and no registration was tried unless its retirement was acknowledged. */
  ghost predicate Released(acts: seq<Act>) {
    (Occurs(acts, Registers) ==> Retired(acts)) && !Occurs(acts, FailedReceive)
  }

  lemma RuleHolds(calls: seq<Call>, k: nat) returns (b: Books)
    requires k < |After(calls).1|
    ensures var acts := After(calls).1;
            && Audit(EMPTY_BOOKS, acts[..k]) == Some(b) && Enter(b, acts[k]).Some? && StandingMeans(acts[..k], b.worker)
            && b.slots == Slots(Slot(Held(acts[..k], WorkSide), StillMapped(acts[..k], WorkSide)),
                                Slot(Held(acts[..k], MessageSide), StillMapped(acts[..k], MessageSide)))
  {
    hide After, Held, StillMapped, StandingMeans, Enter, Kept;
    var acts := After(calls).1;
    ReleaseSafety(calls);
    AuditPrefix(EMPTY_BOOKS, acts, k);
    AuditPrefix(EMPTY_BOOKS, acts, k + 1);
    BooksMean(acts[..k]);
    b := Audit(EMPTY_BOOKS, acts[..k]).value;
    assert acts[..k + 1][..k] == acts[..k];
  }

  /**
   * In every run, whatever the kernel answers: nothing is unmapped or closed after a registration was tried, unless the
   * kernel's own ticket for it was acknowledged, nor after any failed receive; a mapping is removed at the length it was made.
   */
  lemma ReleaseRules(calls: seq<Call>, k: nat)
    requires k < |After(calls).1|
    ensures var acts := After(calls).1;
            && (acts[k].Unmapped? || acts[k].Closed? ==> Released(acts[..k]))
            && (acts[k].Unmapped? ==> StillMapped(acts[..k], acts[k].side) == Some(acts[k].length))
            && (acts[k].Took? || acts[k].Mapped? ==> !Occurs(acts[..k], Registers))
            && Closes(acts, WorkSide) <= Takes(acts) && Closes(acts, MessageSide) <= Takes(acts)
  {
    hide After, Held, StillMapped, Occurs, Retired, Takes, Closes, Kept;
    var b := RuleHolds(calls, k);
    ReleaseSafety(calls);
    ClosesBalance(After(calls).1, WorkSide);
    ClosesBalance(After(calls).1, MessageSide);
  }

  /**
   * In every run a close names the fd that was taken for its side and not closed since, so that a take stands
   * between any two closes of one side; and every mapping made before it, of either side, was successfully removed.
   */
  lemma CloseRules(calls: seq<Call>, k: nat)
    requires k < |After(calls).1| && After(calls).1[k].Closed?
    ensures var acts := After(calls).1;
            && (exists t: nat :: TakenAt(acts, t, k, acts[k].side, acts[k].fd))
            && (forall i | 0 <= i < k && ClosesSide(acts[i], acts[k].side) :: exists t | i < t < k :: acts[t].Took?)
            && (forall i: nat, side | i < k && Maps(acts[i], side) :: UnmappedLater(acts, i, k, side))
  {
    hide After, Held, StillMapped, StandingMeans, MayRelease;
    var acts := After(calls).1;
    var before, side := acts[..k], acts[k].side;
    var b := RuleHolds(calls, k);
    var t := HeldMeans(before, side);
    TakenLonger(acts, t, k, side, acts[k].fd);
    forall i: nat, s | i < k && Maps(acts[i], s) ensures UnmappedLater(acts, i, k, s) {
      assert before[i] == acts[i];
      GoneMeans(before, s, i);
      var u :| i < u < k && Unmaps(before[u], s);
      assert Unmaps(acts[u], s);
    }
    forall i | 0 <= i < k && ClosesSide(acts[i], side) ensures exists t | i < t < k :: acts[t].Took? {
      assert i < t < k && acts[t].Took?;
    }
  }

  lemma TakenLonger(acts: seq<Act>, t: nat, k: nat, side: Side, fd: int)
    requires k <= |acts| && TakenAt(acts[..k], t, k, side, fd)
    ensures TakenAt(acts, t, k, side, fd)
  {
    forall u | t < u < k ensures !ClosesSide(acts[u], side) {
      assert acts[..k][u] == acts[u];
    }
  }

  // ---------------------------------------------------------------- nothing is left behind

  lemma ReleaseEnds(m: Owner, r: Releases)
    requires ReleaseTurn(m, r).ret == 0
    ensures var n := ReleaseTurn(m, r).m; !n.workMapped && !n.messageMapped && !n.ownsFds && !n.prepared && !n.scratch
  {
    hide Busy, Clean;
    UnmapStays(m.(session := m.session.(closed := true)), r.unmapMessage);
    UnmapStays(UnmapMessage(m.(session := m.session.(closed := true)), r.unmapMessage).m, r.unmapWork);
  }

  /** In every run a release that returns success has removed every mapping and closed every fd that was ever taken. */
  lemma NothingLeft(calls: seq<Call>, side: Side)
    requires calls != [] && calls[|calls| - 1].Release?
    requires Next(After(calls[..|calls| - 1]).0, calls[|calls| - 1]).ret == 0
    ensures var acts := After(calls).1;
            Held(acts, side).None? && StillMapped(acts, side).None? && Takes(acts) == Closes(acts, side)
  {
    hide Held, StillMapped, Takes, Closes, StandingMeans, ReleaseTurn, WorkerKept;
    ReleaseSafety(calls);
    var (m, acts) := After(calls);
    BooksMean(acts);
    ReleaseEnds(After(calls[..|calls| - 1]).0, calls[|calls| - 1].releases);
    ClosesBalance(acts, side);
  }

  // ---------------------------------------------------------------- the first cleanup failure

  predicate FailedCleanup(act: Act) {
    (act.Unmapped? || act.Closed?) && act.code != 0
  }

  /** The code of the first unmap or close that failed, or 0. */
  function FirstFailure(acts: seq<Act>): int {
    if acts == [] then 0 else if FailedCleanup(acts[0]) then acts[0].code else FirstFailure(acts[1..])
  }

  function Earlier(a: int, b: int): int {
    if a != 0 then a else b
  }

  lemma {:induction false} FirstFailureAppends(a: seq<Act>, b: seq<Act>)
    ensures FirstFailure(a + b) == Earlier(FirstFailure(a), FirstFailure(b))
  {
    if a == [] {
      assert a + b == b;
    } else {
      assert (a + b)[1..] == a[1..] + b;
      FirstFailureAppends(a[1..], b);
    }
  }

  lemma NoCleanup(acts: seq<Act>)
    requires forall i | 0 <= i < |acts| :: !FailedCleanup(acts[i])
    ensures FirstFailure(acts) == 0
  {
    if acts != [] {
      NoCleanup(acts[1..]);
    }
  }

  lemma UnmapCleanup(m: Owner, code: Code)
    ensures UnmapMessage(m, code).m.cleanupError == Earlier(m.cleanupError, FirstFailure(UnmapMessage(m, code).acts))
    ensures UnmapMessage(m, code).ret == FirstFailure(UnmapMessage(m, code).acts)
    ensures UnmapWork(m, code).m.cleanupError == Earlier(m.cleanupError, FirstFailure(UnmapWork(m, code).acts))
    ensures UnmapWork(m, code).ret == FirstFailure(UnmapWork(m, code).acts)
  {}

  lemma CloseCleanup(m: Owner, r: Releases)
    ensures CloseFds(m, r).m.cleanupError == Earlier(m.cleanupError, FirstFailure(CloseFds(m, r).acts))
    ensures CloseFds(m, r).ret == FirstFailure(CloseFds(m, r).acts)
  {
    if m.ownsFds {
      FirstFailureAppends([Closed(MessageSide, m.messageFd, r.closeMessage)], [Closed(WorkSide, m.workFd, r.closeWork)]);
    }
  }

  lemma ReleaseCleanup(m: Owner, r: Releases)
    ensures var t := ReleaseTurn(m, r);
            t.m.cleanupError == Earlier(m.cleanupError, FirstFailure(t.acts)) && (!Busy(m) ==> t.ret == FirstFailure(t.acts))
  {
    hide UnmapMessage, UnmapWork, CloseFds, Busy, FirstFailure;
    NoCleanup([]);
    var a := UnmapMessage(m.(session := m.session.(closed := true)), r.unmapMessage);
    var b := UnmapWork(a.m, r.unmapWork);
    var c := CloseFds(b.m.(scratch := false, prepared := false), r);
    UnmapCleanup(m.(session := m.session.(closed := true)), r.unmapMessage);
    UnmapCleanup(a.m, r.unmapWork);
    CloseCleanup(b.m.(scratch := false, prepared := false), r);
    FirstFailureAppends(a.acts, b.acts);
    FirstFailureAppends(a.acts + b.acts, c.acts);
  }

  lemma UnwindCleanup(m: Owner, ret: int, r: Releases, acts: seq<Act>)
    requires !Busy(m) && FirstFailure(acts) == 0
    ensures var t := Unwind(m, ret, r, acts); t.m.cleanupError == Earlier(m.cleanupError, FirstFailure(t.acts))
  {
    hide ReleaseTurn, FirstFailure;
    ReleaseCleanup(m.(firstError := ret), r);
    FirstFailureAppends(acts, ReleaseTurn(m.(firstError := ret), r).acts);
  }

  lemma MapCleanup(m: Owner, session: u32, mappings: Mappings, resources: Resources, job: Job, f: Files)
    requires !Busy(m)
    ensures var t := MapBoth(m, session, mappings, resources, job, f); t.m.cleanupError == Earlier(m.cleanupError, FirstFailure(t.acts))
  {
    hide Unwind, FirstFailure, PrepareCode;
    var took := [Took(m.workFd, m.messageFd), Mapped(WorkSide, m.workFd, m.workSize, f.mapWork)];
    var acts := took + [Mapped(MessageSide, m.messageFd, m.messageSize, f.mapMessage)];
    NoCleanup(took);
    NoCleanup(acts);
    var n := m.(workMapped := true);
    UnwindCleanup(m, f.mapWork, f.unwind, took);
    UnwindCleanup(n, f.mapMessage, f.unwind, acts);
    UnwindCleanup(n.(messageMapped := true), ENOMEM, f.unwind, acts);
    UnwindCleanup(n.(messageMapped := true, scratch := true), PrepareCode(session, mappings, f.placement, job), f.unwind, acts);
  }

  lemma RegisterCleanup(o: Registration, s: Session, fd: int, id: u32, code: Code, generation: u64)
    ensures FirstFailure(RegisterTurn(o, s, fd, id, code, generation).acts) == 0
    ensures o.firstError != 0 ==> RegisterTurn(o, s, fd, id, code, generation).o.firstError == o.firstError
  {
    hide FirstFailure;
    NoCleanup(RegisterTurn(o, s, fd, id, code, generation).acts);
  }

  lemma StepCleanup(o: Registration, s: Session, k: Kernel)
    ensures FirstFailure(StepTurn(o, s, k).acts) == 0
    ensures o.firstError != 0 ==> StepTurn(o, s, k).o.firstError == o.firstError
  {
    hide FirstFailure, Genuine, Harmless, ReceiveOnce;
    NoCleanup(StepTurn(o, s, k).acts);
  }

  lemma NextCleanup(m: Owner, call: Call)
    requires m.session.firstError != 0 ==> m.worker.compositionFailed
    requires m.worker.compositionFailed ==> m.worker.generation != 0
    ensures Next(m, call).m.cleanupError == Earlier(m.cleanupError, FirstFailure(Next(m, call).acts))
  {
    hide FirstFailure, MapBoth, ReleaseTurn, RegisterTurn, StepTurn;
    NoCleanup([]);
    match call
    case Prepare(session, mappings, resources, job, f) =>
      if PrepareTurn(m, session, mappings, resources, job, f).acts != [] {
        PrepareGuarded(m, session, mappings, resources, job, f);
      }
      if !Busy(m) {
        MapCleanup(Owning(m, mappings), session, mappings, resources, job, f);
      }
    case Register(fd, id, code, generation) =>
      RegisterCleanup(m.worker, m.session, fd, id, code, generation);
    case Step(kernel) =>
      StepCleanup(m.worker, m.session, kernel);
    case Release(releases) => ReleaseCleanup(m, releases);
  }

  /** In every run the owner's cleanup error is the code of the first unmap or close that ever failed. */
  lemma {:induction false} FirstCleanup(calls: seq<Call>)
    ensures After(calls).0.cleanupError == FirstFailure(After(calls).1)
  {
    hide Next;
    if calls != [] {
      var before := calls[..|calls| - 1];
      FirstCleanup(before);
      ReleaseSafety(before);
      NextCleanup(After(before).0, calls[|calls| - 1]);
      FirstFailureAppends(After(before).1, Next(After(before).0, calls[|calls| - 1]).acts);
    }
  }

  lemma ReleaseErrors(m: Owner, r: Releases)
    ensures ReleaseTurn(m, r).m.worker == m.worker && ReleaseTurn(m, r).m.firstError == m.firstError
  {
    hide Busy, UnmapMessage, UnmapWork, CloseFds;
    var a := UnmapMessage(m.(session := m.session.(closed := true)), r.unmapMessage);
    var b := UnmapWork(a.m, r.unmapWork);
    UnmapErrors(m.(session := m.session.(closed := true)), r.unmapMessage);
    UnmapErrors(a.m, r.unmapWork);
    CloseErrors(b.m.(scratch := false, prepared := false), r);
  }

  lemma UnmapErrors(m: Owner, code: Code)
    ensures UnmapMessage(m, code).m.worker == m.worker && UnmapMessage(m, code).m.firstError == m.firstError
    ensures UnmapWork(m, code).m.worker == m.worker && UnmapWork(m, code).m.firstError == m.firstError
  {}

  lemma CloseErrors(m: Owner, r: Releases)
    ensures CloseFds(m, r).m.worker == m.worker && CloseFds(m, r).m.firstError == m.firstError
  {}

  /** No call replaces the first error of the registration or of the mappings. */
  lemma FirstErrorsStay(m: Owner, call: Call)
    ensures m.worker.firstError != 0 ==> Next(m, call).m.worker.firstError == m.worker.firstError
    ensures m.firstError != 0 ==> Next(m, call).m.firstError == m.firstError
  {
    hide ReleaseTurn, MapBoth, RegisterTurn, StepTurn;
    match call
    case Prepare(_, _, _, _, _) =>
    case Register(fd, id, code, generation) => RegisterCleanup(m.worker, m.session, fd, id, code, generation);
    case Step(kernel) => StepCleanup(m.worker, m.session, kernel);
    case Release(releases) => ReleaseErrors(m, releases);
  }

  /** Preparation touches files only for a free owner, with distinct fds of distinct files that are long enough. */
  lemma PrepareGuarded(m: Owner, session: u32, mappings: Mappings, resources: Resources, job: Job, f: Files)
    requires PrepareTurn(m, session, mappings, resources, job, f).acts != []
    ensures session <= 3 && mappings.work.fd <= 0x7fff_ffff && mappings.message.fd <= 0x7fff_ffff && mappings.work.fd != mappings.message.fd
    ensures mappings.work.size > 0 && mappings.message.size >= 92291
    ensures f.statWork == 0 && f.statMessage == 0 && !f.sameFile
    ensures f.workLength >= mappings.work.size && f.messageLength >= mappings.message.size
    ensures !m.prepared && !m.ownsFds && !m.workMapped && !m.messageMapped && m.firstError == 0
    ensures m.worker.generation == 0 && m.worker.firstError == 0 && !m.worker.entered && !m.worker.retired
  {
    hide MapBoth;
  }

  /** Release does anything at all only for a worker that is outside a step, without failures, and unregistered or retired. */
  lemma ReleaseGuarded(m: Owner, r: Releases)
    requires ReleaseTurn(m, r).m != m || ReleaseTurn(m, r).acts != []
    ensures !m.worker.entered && !m.worker.compositionFailed && m.session.firstError == 0
    ensures m.worker.retired || (m.worker.generation == 0 && m.worker.firstError == 0)
  {
    hide UnmapMessage, UnmapWork, CloseFds;
  }

  /** No ticket is offered, and the receive is closed off or woken without an envelope. */
  predicate Idles(s: Session, k: Kernel) {
    k.query == EAGAIN && (s.closed || k.read == ETIMEDOUT || k.read == EINTR || k.read == ESHUTDOWN)
  }

  function StepAll(m: Owner, ks: seq<Kernel>): Owner
    decreases |ks|
  {
    if ks == [] then m else StepAll(Next(m, Call.Step(ks[0])).m, ks[1..])
  }

  /**
   * However long a registered worker idles, also after its session was closed by a DESTROY, nothing counts as a failed
   * composition: the genuine ticket still retires it, and release is then not refused.
   */
  lemma {:induction false} IdlingIsHarmless(m: Owner, ks: seq<Kernel>, k: Kernel)
    requires m.worker.generation != 0 && m.worker.fd >= 0 && m.worker.firstError == 0 && m.session.session == m.worker.session
    requires !m.worker.entered && !m.worker.retired && !m.worker.compositionFailed && m.session.firstError == 0
    requires forall i | 0 <= i < |ks| :: Idles(m.session, ks[i])
    requires k.query == 0 && k.ack == 0 && TicketFor(m.worker.session, m.worker.generation, k.ticket)
    ensures StepAll(m, ks) == m
    ensures var n := Next(m, Call.Step(k)).m; n.worker.retired && n.session.closed && !Busy(n)
    decreases |ks|
  {
    hide ReceiveOnce;
    if ks != [] {
      NothingReceived(m.session, ks[0].message, m.worker.fd, ks[0].read, ks[0].req, ks[0].io);
      IdlingIsHarmless(m, ks[1..], k);
    }
  }

  const GOOD_RELEASE := Releases(0, 0, 0, 0)

  /** Files that can be mapped, and calls that succeed. */
  predicate GoodFiles(f: Files, mappings: Mappings) {
    && f.statWork == 0 && f.statMessage == 0 && f.workLength >= mappings.work.size && f.messageLength >= mappings.message.size
    && !f.sameFile && f.mapWork == 0 && f.mapMessage == 0 && f.scratchOk
  }

  lemma PrepareSucceeds(session: u32, mappings: Mappings, resources: Resources, job: Job, f: Files)
    requires PrepareCode(session, mappings, f.placement, job) == 0 && GoodFiles(f, mappings) && mappings.work.fd != mappings.message.fd
    ensures PrepareTurn(FRESH_OWNER, session, mappings, resources, job, f)
            == MapTurn(Owner(UNREGISTERED, FreshSession(session, mappings, resources, job, ZERO_CONFIG), true, true, true, true, true,
                             mappings.work.fd, mappings.message.fd, mappings.work.size, mappings.message.size, 0, 0),
                       0,
                       [Took(mappings.work.fd, mappings.message.fd), Mapped(WorkSide, mappings.work.fd, mappings.work.size, 0),
                        Mapped(MessageSide, mappings.message.fd, mappings.message.size, 0)])
  {
    hide InRange, Overlap, Apart, Unwind;
  }

  lemma ReleaseSucceeds(m: Owner)
    requires !Busy(m) && m.workMapped && m.messageMapped && m.ownsFds
    ensures ReleaseTurn(m, GOOD_RELEASE).ret == 0
    ensures ReleaseTurn(m, GOOD_RELEASE).acts
            == [Unmapped(MessageSide, m.messageSize, 0), Unmapped(WorkSide, m.workSize, 0), Closed(MessageSide, m.messageFd, 0),
                Closed(WorkSide, m.workFd, 0)]
  {}

  /**
   * A worker's life without failures: preparation maps both buffers, registration succeeds, the genuine ticket is
   * acknowledged, and release removes exactly those mappings and closes exactly those fds.
   */
  lemma LosslessLife(session: u32, mappings: Mappings, resources: Resources, job: Job, f: Files, fd: int, generation: u64, k: Kernel)
    requires PrepareCode(session, mappings, f.placement, job) == 0 && GoodFiles(f, mappings) && mappings.work.fd != mappings.message.fd
    requires fd >= 0 && generation != 0 && k.query == 0 && k.ack == 0 && TicketFor(session, generation, k.ticket)
    ensures var calls := [Prepare(session, mappings, resources, job, f), Register(fd, session, 0, generation), Call.Step(k), Release(GOOD_RELEASE)];
            var prepared := Next(FRESH_OWNER, calls[0]);
            var registered := Next(prepared.m, calls[1]);
            var retired := Next(registered.m, calls[2]);
            var released := Next(retired.m, calls[3]);
            && prepared.ret == 0 && prepared.m.prepared && registered.ret == 0 && retired.ret == 0 && retired.m.session.closed
            && released.ret == 0 && released.acts == [Unmapped(MessageSide, mappings.message.size, 0), Unmapped(WorkSide, mappings.work.size, 0),
                                                      Closed(MessageSide, mappings.message.fd, 0), Closed(WorkSide, mappings.work.fd, 0)]
  {
    hide PrepareTurn, ReleaseTurn, InRange, Overlap, Apart, ReceiveTurn;
    PrepareSucceeds(session, mappings, resources, job, f);
    var prepared := PrepareTurn(FRESH_OWNER, session, mappings, resources, job, f).m;
    var registered := Next(prepared, Register(fd, session, 0, generation)).m;
    var retired := Next(registered, Call.Step(k)).m;
    ReleaseSucceeds(retired);
  }

  // ---------------------------------------------------------------- the owners as objects

  class RegisteredWorker {
    var fd: int
    var firstError: int
    var session: u32
    var entered: bool
    var retired: bool
    var compositionFailed: bool
    var generation: u64

    function State(): Registration
      reads this
    {
      Registration(fd, firstError, session, entered, retired, compositionFailed, generation)
    }

    constructor ()
      ensures State() == UNREGISTERED
    {
      fd, firstError, session, entered, retired, compositionFailed, generation := 0, 0, 0, false, false, false, 0;
    }

    method Register(fd: int, session: u32, code: Code, generation: u64, ghost s: Session) returns (ret: int, acts: seq<Act>)
      modifies this
      ensures OwnerTurn(State(), s, ret, acts) == RegisterTurn(old(State()), s, fd, session, code, generation)
    {
      if fd < 0 || session > 3 {
        return EINVAL, [];
      }
      if this.generation != 0 || entered || retired {
        return EALREADY, [];
      }
      if firstError != 0 {
        return firstError, [];
      }
      acts := [Registered(session, code, generation)];
      if code != 0 {
        firstError := code;
        return code, acts;
      }
      if generation == 0 {
        firstError := EPROTO;
        return EPROTO, acts;
      }
      this.fd, this.session, this.generation := fd, session, generation;
      ret := 0;
    }

    /** Queries retirement first, and only then receives or acknowledges. */
    method Step(s: Session, k: Kernel) returns (t: Session, ret: int, acts: seq<Act>)
      modifies this
      ensures OwnerTurn(State(), t, ret, acts) == StepTurn(old(State()), s, k)
    {
      hide ReceiveTurn, RetireTurn;
      t, acts := s, [];
      if generation == 0 || fd < 0 || s.session != session {
        return t, EINVAL, [];
      }
      if entered || retired {
        return t, if retired then ESHUTDOWN else EBUSY, [];
      }
      entered := true;
      acts := [Queried(k.query, k.ticket)];
      if k.query == 0 {
        t, ret, acts := Retire(s, k);
      } else if k.query != EAGAIN {
        ret := k.query;
        Latch(ret);
      } else if firstError != 0 {
        ret := firstError;
      } else if s.closed && s.firstError == 0 {
        ret := ESHUTDOWN;
      } else {
        t, ret, acts := Receive(s, k);
      }
      entered := false;
    }

    method Latch(error: int)
      modifies this`firstError
      ensures firstError == if old(firstError) == 0 then error else old(firstError)
    {
      if firstError == 0 {
        firstError := error;
      }
    }

    /** The registration as seen between calls. */
    function Left(): Registration
      reads this
    {
      State().(entered := false)
    }

    /** One receive; anything but a plain wake-up counts as a failed composition. */
    method Receive(s: Session, k: Kernel) returns (t: Session, ret: int, acts: seq<Act>)
      requires k.query == EAGAIN
      modifies this`compositionFailed, this`firstError
      ensures OwnerTurn(Left(), t, ret, acts) == ReceiveTurn(old(Left()), s, k)
    {
      hide ReceiveOnce;
      var r := ReceiveOnce(s, k.message, fd, k.read, k.req, k.io);
      t, ret, acts := r.s, r.ret, [Queried(k.query, k.ticket), Received(r.events, r.s.firstError, r.ret)];
      if t.firstError != 0 {
        compositionFailed, ret := true, t.firstError;
        Latch(ret);
      } else if !Harmless(ret) {
        compositionFailed := true;
        Latch(ret);
      }
    }

    /** The offered ticket is acknowledged only if it is genuine and nothing ever failed. */
    method Retire(s: Session, k: Kernel) returns (t: Session, ret: int, acts: seq<Act>)
      requires k.query == 0
      modifies this`retired, this`firstError
      ensures OwnerTurn(Left(), t, ret, acts) == RetireTurn(old(Left()), s, k)
    {
      t, acts := s, [Queried(0, k.ticket)];
      if !Genuine(State(), k.ticket) {
        ret := EPROTO;
      } else if compositionFailed || s.firstError != 0 {
        ret := if firstError != 0 then firstError else if s.firstError != 0 then s.firstError else EIO;
      } else {
        t := s.(closed := true);
        ret, acts := k.ack, acts + [Acked(k.ticket, k.ack)];
        if ret == 0 {
          retired := true;
          return;
        }
      }
      Latch(ret);
    }
  }

  class MappedWorker {
    const worker: RegisteredWorker
    var session: Session
    var scratch: bool
    var prepared: bool
    var ownsFds: bool
    var workMapped: bool
    var messageMapped: bool
    var workFd: int
    var messageFd: int
    var workSize: u32
    var messageSize: u32
    var firstError: int
    var cleanupError: int

    function State(): Owner
      reads this, worker
    {
      Owner(worker.State(), session, scratch, prepared, ownsFds, workMapped, messageMapped, workFd, messageFd, workSize, messageSize,
            firstError, cleanupError)
    }

    constructor ()
      ensures State() == FRESH_OWNER && fresh(worker)
    {
      worker := new RegisteredWorker();
      session, scratch, prepared, ownsFds, workMapped, messageMapped := ZERO_SESSION, false, false, false, false, false;
      workFd, messageFd, workSize, messageSize, firstError, cleanupError := 0, 0, 0, 0, 0, 0;
    }

    method CleanupError(code: int)
      modifies this`cleanupError
      ensures State() == Clean(old(State()), code)
    {
      if cleanupError == 0 {
        cleanupError := code;
      }
    }

    method CloseBoth(r: Releases) returns (ret: int, acts: seq<Act>)
      modifies this
      ensures MapTurn(State(), ret, acts) == CloseFds(old(State()), r)
    {
      ret, acts := 0, [];
      if ownsFds {
        ownsFds := false;
        acts := [Closed(MessageSide, messageFd, r.closeMessage)];
        messageFd := -1;
        if r.closeMessage != 0 {
          ret := r.closeMessage;
          CleanupError(ret);
        }
        acts := acts + [Closed(WorkSide, workFd, r.closeWork)];
        workFd := -1;
        if r.closeWork != 0 {
          if ret == 0 {
            ret := r.closeWork;
          }
          CleanupError(r.closeWork);
        }
      }
    }

    method DropMessage(code: Code) returns (ret: int, acts: seq<Act>)
      modifies this
      ensures MapTurn(State(), ret, acts) == UnmapMessage(old(State()), code)
    {
      ret, acts := 0, [];
      if messageMapped {
        ret, acts := code, [Unmapped(MessageSide, messageSize, code)];
        if ret != 0 {
          CleanupError(ret);
        } else {
          messageMapped := false;
        }
      }
    }

    method DropWork(code: Code) returns (ret: int, acts: seq<Act>)
      modifies this
      ensures MapTurn(State(), ret, acts) == UnmapWork(old(State()), code)
    {
      ret, acts := 0, [];
      if workMapped {
        ret, acts := code, [Unmapped(WorkSide, workSize, code)];
        if ret != 0 {
          CleanupError(ret);
        } else {
          workMapped := false;
        }
      }
    }

    method Release(r: Releases) returns (ret: int, acts: seq<Act>)
      modifies this
      ensures MapTurn(State(), ret, acts) == ReleaseTurn(old(State()), r)
    {
      hide CloseFds, UnmapMessage, UnmapWork;
      ret, acts := 0, [];
      if Busy(State()) {
        return EBUSY, [];
      }
      session := session.(closed := true);
      var work, undone;
      ret, acts := DropMessage(r.unmapMessage);
      work, undone := DropWork(r.unmapWork);
      acts := acts + undone;
      if ret == 0 {
        ret := work;
      }
      if ret != 0 {
        return;
      }
      scratch, prepared := false, false;
      var closed;
      ret, closed := CloseBoth(r);
      acts := acts + closed;
    }

    method Prepare(id: u32, mappings: Mappings, resources: Resources, job: Job, f: Files) returns (ret: int, acts: seq<Act>)
      modifies this
      ensures MapTurn(State(), ret, acts) == PrepareTurn(old(State()), id, mappings, resources, job, f)
    {
      hide MapBoth;
      acts := [];
      if id > 3 || mappings.work.fd > 0x7fff_ffff || mappings.message.fd > 0x7fff_ffff || mappings.work.fd == mappings.message.fd
         || mappings.work.size == 0 || mappings.message.size < FRAME_BYTES {
        return EINVAL, [];
      }
      if prepared || ownsFds || workMapped || messageMapped || worker.generation != 0 || worker.firstError != 0 || worker.entered
         || worker.retired {
        return EBUSY, [];
      }
      if firstError != 0 {
        return firstError, [];
      }
      if f.statWork != 0 {
        return f.statWork, [];
      }
      if f.statMessage != 0 {
        return f.statMessage, [];
      }
      if f.workLength < mappings.work.size || f.messageLength < mappings.message.size || f.sameFile {
        return ERANGE, [];
      }
      workFd, messageFd, ownsFds := mappings.work.fd, mappings.message.fd, true;
      workSize, messageSize := mappings.work.size, mappings.message.size;
      ret, acts := MapBuffers(id, mappings, resources, job, f);
    }

    /** Maps both buffers and prepares the session; any failure is terminal and unwound. */
    method MapBuffers(id: u32, mappings: Mappings, resources: Resources, job: Job, f: Files) returns (ret: int, acts: seq<Act>)
      modifies this
      ensures MapTurn(State(), ret, acts) == MapBoth(old(State()), id, mappings, resources, job, f)
    {
      hide PrepareCode, ReleaseTurn;
      acts := [Took(workFd, messageFd), Mapped(WorkSide, workFd, workSize, f.mapWork)];
      ret := f.mapWork;
      if ret == 0 {
        workMapped := true;
        acts := acts + [Mapped(MessageSide, messageFd, messageSize, f.mapMessage)];
        ret := f.mapMessage;
      }
      if ret == 0 {
        messageMapped := true;
        ret := if f.scratchOk then 0 else ENOMEM;
      }
      if ret == 0 {
        scratch := true;
        ret := PrepareCode(id, mappings, f.placement, job);
      }
      if ret == 0 {
        session := FreshSession(id, mappings, resources, job, ZERO_CONFIG);
        prepared := true;
        return;
      }
      firstError := ret;
      var unwind, undone := Release(f.unwind);
      if unwind != 0 {
        CleanupError(unwind);
      }
      acts := acts + undone;
    }
  }
}
